/**
 * Social-platform tasks: the message pools and their `{key}` filling, the
 * per-platform engagement metrics, and the constructors that build a task
 * with its app deep link and web fallback. Ids, the clock and the random
 * message pick are parameters.
 */
module Social {
  import opened Wrappers
  import opened Seqs
  import opened Text
  import opened Placeholders
  import UriComponent
  import opened ExternalLinks

  datatype SocialPlatform = Twitter | Discord | GitHub | LinkedIn | Telegram
  datatype SocialTaskType = Post | Engage | Reply | Review | Share | Attend | Check

  datatype SocialTask = SocialTask(
    id: string,
    platform: SocialPlatform,
    kind: SocialTaskType,
    title: string,
    description: Option<string>,
    targetUrl: Option<string>,
    prefilledContent: Option<string>,
    deadline: Option<int>,
    completed: bool,
    deepLink: Option<string>,
    webFallback: Option<string>)

  /** The platforms in the order the metrics visit them. */
  const Platforms: seq<SocialPlatform> := [Twitter, Discord, GitHub, LinkedIn, Telegram]

  lemma PlatformsComplete(p: SocialPlatform)
    ensures p in Platforms
  {
  }

  /** The nagging messages of each platform, five apiece. */
  const TwitterMessages: seq<string> := [
    "Your followers haven't heard from you in a while. They're worried.",
    "The algorithm is forgetting you exist. Post something!",
    "{friend} just tweeted. Don't let them steal your spotlight.",
    "Your Twitter engagement is crying. Show it some love.",
    "Tweet or be forgotten. Those are the only options."]

  const DiscordMessages: seq<string> := [
    "There are {count} unread messages in your alpha group. FOMO is real.",
    "Everyone's chatting without you. That's fine. Totally fine.",
    "Your Discord status has been 'offline' for too long. People are talking.",
    "You missed 3 announcements. Could be nothing. Could be everything.",
    "The community event started. Without you. As usual."]

  const GitHubMessages: seq<string> := [
    "Your PR has been open for {days} days. The code is getting stale.",
    "Someone left a review on your code. They have... opinions.",
    "{count} issues assigned to you. They're multiplying.",
    "Your contribution graph is looking pretty... empty.",
    "Open source doesn't maintain itself. Well, actually it does. But still."]

  const LinkedInMessages: seq<string> := [
    "Your network grew by 0 people this week. Very exclusive.",
    "{count} people viewed your profile. Make them remember you.",
    "Your competitor just posted about their promotion. Just saying.",
    "Professional networking: It's like regular networking, but with more humble bragging.",
    "Share your wins or did they even happen?"]

  const TelegramMessages: seq<string> := [
    "Your alpha group is on fire. You're missing it.",
    "{count} unread messages. Some of them might even be important.",
    "The group chat moved on without you. As groups do.",
    "New announcement in your favorite channel. Or was it spam? Only one way to find out.",
    "Your Telegram is lonelier than a read receipt without a reply."]

  function SocialMessages(platform: SocialPlatform): (r: seq<string>)
    ensures |r| == 5
  {
    match platform
    case Twitter => TwitterMessages
    case Discord => DiscordMessages
    case GitHub => GitHubMessages
    case LinkedIn => LinkedInMessages
    case Telegram => TelegramMessages
  }

  /**
   * `getSocialTaskMessage`: a message of the platform's pool picked by
   * `random`, with each replacement filling the first `{key}`; without
   * replacements the message is returned as picked.
   */
  method GetSocialTaskMessage(platform: SocialPlatform, random: real, replacements: Option<seq<(string, string)>>)
    returns (message: string)
    requires 0.0 <= random < 1.0
    ensures exists t :: t in SocialMessages(platform) && message == Fill(t, replacements.GetOr([]))
    ensures replacements.None? ==> message in SocialMessages(platform)
  {
    var t := Pick(SocialMessages(platform), random);
    message := t;
    if replacements.Some? {
      message := FillPlaceholders(t, replacements.value);
    }
  }

  // ---------------------------------------------------------------------
  // Metrics
  // ---------------------------------------------------------------------

  datatype SocialMetrics = SocialMetrics(platform: SocialPlatform, tasksCompleted: nat, lastActivity: Option<int>, streak: int)

  function OnPlatform(platform: SocialPlatform): SocialTask -> bool {
    (t: SocialTask) => t.platform == platform
  }

  predicate IsCompleted(t: SocialTask) {
    t.completed
  }

  /** The metrics of one platform; `now` stands for the `new Date()` of a platform with completions. */
  function MetricsFor(tasks: seq<SocialTask>, platform: SocialPlatform, now: int): (m: SocialMetrics)
    ensures m.platform == platform && m.streak == 0
    ensures m.tasksCompleted <= |Filter(tasks, OnPlatform(platform))|
    ensures m.lastActivity.None? <==> m.tasksCompleted == 0
    ensures m.lastActivity.Some? ==> m.lastActivity.value == now
  {
    var completed := Filter(Filter(tasks, OnPlatform(platform)), IsCompleted);
    SocialMetrics(platform, |completed|, if |completed| > 0 then Some(now) else None, 0)
  }

  /** `calculateSocialMetrics`: the `forEach` over the five platforms that fills the map. */
  method CalculateSocialMetrics(tasks: seq<SocialTask>, now: int) returns (metrics: map<SocialPlatform, SocialMetrics>)
    ensures forall p :: p in metrics
    ensures forall p :: metrics[p] == MetricsFor(tasks, p, now)
  {
    metrics := map[];
    var i := 0;
    while i < |Platforms|
      invariant 0 <= i <= |Platforms|
      invariant forall p :: p in metrics <==> p in Platforms[..i]
      invariant forall p :: p in metrics ==> metrics[p] == MetricsFor(tasks, p, now)
    {
      var platform := Platforms[i];
      metrics := metrics[platform := MetricsFor(tasks, platform, now)];
      assert Platforms[..i + 1] == Platforms[..i] + [platform];
      i := i + 1;
    }
    forall p ensures p in metrics {
      PlatformsComplete(p);
      assert Platforms[..|Platforms|] == Platforms;
    }
  }

  /** Every completed task belongs to exactly one platform: the per-platform counts add up to all completions. */
  lemma {:induction false} CompletedCountsAddUp(tasks: seq<SocialTask>, now: int)
    ensures MetricsFor(tasks, Twitter, now).tasksCompleted + MetricsFor(tasks, Discord, now).tasksCompleted
          + MetricsFor(tasks, GitHub, now).tasksCompleted + MetricsFor(tasks, LinkedIn, now).tasksCompleted
          + MetricsFor(tasks, Telegram, now).tasksCompleted == |Filter(tasks, IsCompleted)|
    decreases |tasks|
  {
    if tasks != [] {
      CompletedCountsAddUp(tasks[1..], now);
      CompletedStep(tasks, Twitter);
      CompletedStep(tasks, Discord);
      CompletedStep(tasks, GitHub);
      CompletedStep(tasks, LinkedIn);
      CompletedStep(tasks, Telegram);
    }
  }

  lemma CompletedStep(tasks: seq<SocialTask>, p: SocialPlatform)
    requires tasks != []
    ensures |Filter(Filter(tasks, OnPlatform(p)), IsCompleted)|
         == (if tasks[0].platform == p && tasks[0].completed then 1 else 0)
          + |Filter(Filter(tasks[1..], OnPlatform(p)), IsCompleted)|
  {
    var rest := Filter(tasks[1..], OnPlatform(p));
    if tasks[0].platform == p {
      assert Filter(tasks, OnPlatform(p)) == [tasks[0]] + rest;
      assert ([tasks[0]] + rest)[1..] == rest;
    } else {
      assert Filter(tasks, OnPlatform(p)) == rest;
    }
  }

  // ---------------------------------------------------------------------
  // Executing a task
  // ---------------------------------------------------------------------

  /** What `executeSocialTask` asks the browser to do. */
  datatype Launch =
    | OpenWithFallback(deepLink: string, webFallback: string)  // `openDeepLink`: try the app, then the web page
    | Navigate(url: string)                                     // `window.location.href = ..`
    | OpenTab(url: string)                                      // `window.open(.., '_blank')`
    | NoLaunch

  /**
   * `executeSocialTask`: the app link with its fallback when both are
   * non-empty, the app link alone, else the fallback or the target URL in
   * a new tab; nothing when the task has no non-empty link at all.
   */
  function ExecuteSocialTask(task: SocialTask): (r: Launch)
    ensures r.OpenWithFallback? <==> Truthy(task.deepLink) && Truthy(task.webFallback)
    ensures r.OpenWithFallback? ==> r == OpenWithFallback(task.deepLink.value, task.webFallback.value)
    ensures r.Navigate? <==> Truthy(task.deepLink) && !Truthy(task.webFallback)
    ensures r.Navigate? ==> r.url == task.deepLink.value
    ensures r.OpenTab? ==> r.url == OrElse(task.webFallback, task.targetUrl.GetOr("")) && r.url != []
    ensures r.NoLaunch? <==> !Truthy(task.deepLink) && !Truthy(task.webFallback) && !Truthy(task.targetUrl)
  {
    if Truthy(task.deepLink) && Truthy(task.webFallback) then OpenWithFallback(task.deepLink.value, task.webFallback.value)
    else if Truthy(task.deepLink) then Navigate(task.deepLink.value)
    else if Truthy(task.webFallback) || Truthy(task.targetUrl) then OpenTab(OrElse(task.webFallback, task.targetUrl.GetOr("")))
    else NoLaunch
  }

  // ---------------------------------------------------------------------
  // Task constructors
  // ---------------------------------------------------------------------

  /** `id || `<platform>-${Date.now()}``: the given id when non-empty, else one made from the clock. */
  function IdOr(id: Option<string>, platformPrefix: string, now: int): (r: string)
    ensures Truthy(id) ==> r == id.value
    ensures !Truthy(id) ==> r == platformPrefix + "-" + IntString(now)
  {
    OrElse(id, platformPrefix + "-" + IntString(now))
  }

  /** An id made from the clock starts with its platform prefix. */
  lemma ClockIdHead(platformPrefix: string, now: int)
    requires platformPrefix != []
    ensures IdOr(None, platformPrefix, now) != [] && IdOr(None, platformPrefix, now)[0] == platformPrefix[0]
  {
    var r := IdOr(None, platformPrefix, now);
    assert r == platformPrefix + ("-" + IntString(now));
  }

  const TwitterExcerptUnits := 50

  /**
   * The twitter description: the first 50 UTF-16 units of the content
   * between `Share: "` and `..."`, that is the longest prefix that fits in
   * 50 units (the next character, if any, would not fit).
   */
  function TwitterDescription(content: string): (r: string)
    ensures content == [] ==> r == "Share your thoughts"
    ensures content != [] ==>
      exists k :: 0 <= k <= |content| && Utf16Length(content[..k]) <= TwitterExcerptUnits
        && (k < |content| ==> Utf16Length(content[..k]) + Utf16Units(content[k]) > TwitterExcerptUnits)
        && r == "Share: \"" + content[..k] + "...\""
  {
    if content != [] then
      var excerpt := SliceUnits(content, TwitterExcerptUnits);
      assert excerpt == content[..|excerpt|];
      "Share: \"" + excerpt + "...\""
    else "Share your thoughts"
  }

  /** `createTwitterPostTask`: a pending post whose app link and web fallback both carry the content. */
  function CreateTwitterPostTask(content: string, id: Option<string>, now: int): (t: SocialTask)
    ensures t.platform == Twitter && t.kind == Post && !t.completed
    ensures t.id == IdOr(id, "twitter", now) && t.title == "Post on Twitter"
    ensures t.description == Some(TwitterDescription(content))
    ensures t.prefilledContent == Some(content)
    ensures t.deepLink.Some? && StartsWith(t.deepLink.value, TwitterComposePrefix)
    ensures t.deepLink.Some? && UriComponent.Decode(After(t.deepLink.value, TwitterComposePrefix)) == Some(content)
    ensures t.webFallback.Some? && StartsWith(t.webFallback.value, TwitterWebComposePrefix)
    ensures t.webFallback.Some? && UriComponent.Decode(After(t.webFallback.value, TwitterWebComposePrefix)) == Some(content)
    ensures t.targetUrl.None? && t.deadline.None?
  {
    SocialTask(IdOr(id, "twitter", now), Twitter, Post, "Post on Twitter", Some(TwitterDescription(content)),
               None, Some(content), None, false, Some(TwitterCompose(content)), Some(TwitterWebCompose(content)))
  }

  /** For content inside the Basic Multilingual Plane the excerpt is the first 50 characters. */
  lemma TwitterDescriptionBmp(content: string)
    requires content != []
    requires forall i :: 0 <= i < |content| ==> Utf16Units(content[i]) == 1
    ensures TwitterDescription(content)
         == "Share: \"" + content[..if |content| < TwitterExcerptUnits then |content| else TwitterExcerptUnits] + "...\""
  {
    SliceUnitsBmp(content, TwitterExcerptUnits);
  }

  /** `createDiscordCheckTask`: a pending check whose links name the server and channel as path segments. */
  function CreateDiscordCheckTask(serverId: string, channelId: string, serverName: string, id: Option<string>, now: int)
    : (t: SocialTask)
    ensures t.platform == Discord && t.kind == Check && !t.completed
    ensures t.id == IdOr(id, "discord", now) && t.title == "Check " + serverName
    ensures t.description == Some("New messages waiting for you")
    ensures t.deepLink == Some(DiscordChannel(serverId, channelId))
    ensures t.webFallback == Some(DiscordWebChannel(serverId, channelId))
    ensures '/' !in serverId && '/' !in channelId ==>
      Split(After(t.deepLink.value, DiscordChannelsPrefix), "/") == [serverId, channelId]
      && Split(After(t.webFallback.value, DiscordWebChannelsPrefix), "/") == [serverId, channelId]
  {
    SocialTask(IdOr(id, "discord", now), Discord, Check, "Check " + serverName, Some("New messages waiting for you"),
               None, None, None, false, Some(DiscordChannel(serverId, channelId)), Some(DiscordWebChannel(serverId, channelId)))
  }

  /** `createGitHubReviewTask`: a pending review whose target and fallback are the same pull-request page. */
  function CreateGitHubReviewTask(owner: string, repo: string, prNumber: int, prTitle: string, id: Option<string>, now: int)
    : (t: SocialTask)
    ensures t.platform == GitHub && t.kind == Review && !t.completed
    ensures t.id == IdOr(id, "github", now) && t.title == "Review PR #" + IntString(prNumber)
    ensures t.description == Some(prTitle)
    ensures t.targetUrl == t.webFallback == Some(GitHubPr(owner, repo, prNumber))
    ensures t.deepLink.None?
    ensures '/' !in owner && '/' !in repo ==>
      Split(After(t.targetUrl.value, GitHubWebPrefix), "/") == [owner, repo, "pull", IntString(prNumber)]
  {
    var url := GitHubPr(owner, repo, prNumber);
    SocialTask(IdOr(id, "github", now), GitHub, Review, "Review PR #" + IntString(prNumber), Some(prTitle),
               Some(url), None, None, false, None, Some(url))
  }

  /** `createLinkedInShareTask`: a pending share whose fallback is the share page for the URL and title. */
  function CreateLinkedInShareTask(url: string, title: string, id: Option<string>, now: int): (t: SocialTask)
    ensures t.platform == LinkedIn && t.kind == Share && !t.completed
    ensures t.id == IdOr(id, "linkedin", now) && t.title == "Share on LinkedIn"
    ensures t.description == Some(title) && t.targetUrl == Some(url)
    ensures t.webFallback == Some(LinkedInShare(url, Some(title)))
    ensures UriComponent.Decode(Split(After(t.webFallback.value, LinkedInSharePrefix), "&")[0]) == Some(url)
  {
    SocialTask(IdOr(id, "linkedin", now), LinkedIn, Share, "Share on LinkedIn", Some(title),
               Some(url), None, None, false, None, Some(LinkedInShare(url, Some(title))))
  }

  /** The sample post (written as a concatenation so the verifier does not evaluate the link encoders on it). */
  const SampleTweet: string := "Just crushed my productivity goals! " + "\U{1F680} #BuildInPublic"

  const SampleDiscord := SocialTask("social-discord-1", Discord, Check, "Check Alpha Discord",
    Some("47 unread messages in announcements"), None, None, None, false, None, Some("https://discord.com"))
  const SampleGitHub := SocialTask("social-github-1", GitHub, Review, "Review open PRs",
    Some("3 PRs waiting for your review"), None, None, None, false, None, Some("https://github.com/pulls"))
  const SampleLinkedIn := SocialTask("social-linkedin-1", LinkedIn, Engage, "Engage with network",
    Some("Comment on 3 posts from your network"), None, None, None, false, None, Some("https://linkedin.com/feed"))
  const SampleTelegram := SocialTask("social-telegram-1", Telegram, Check, "Check Telegram groups",
    Some("New alpha dropped in your groups"), None, None, None, false, None, Some("https://web.telegram.org"))

  /** The four sample tasks after the tweet; their ids are fixed. */
  const SampleChecks := [SampleDiscord, SampleGitHub, SampleLinkedIn, SampleTelegram]

  /** The fixed sample ids all start with `s` and are pairwise distinct. */
  lemma SampleChecksIds()
    ensures forall i :: 0 <= i < |SampleChecks| ==> SampleChecks[i].id != [] && SampleChecks[i].id[0] == 's'
    ensures forall i, j :: 0 <= i < j < |SampleChecks| ==> SampleChecks[i].id != SampleChecks[j].id
  {
    var ids := [SampleChecks[0].id, SampleChecks[1].id, SampleChecks[2].id, SampleChecks[3].id];
    assert ids[0][7] == 'd' && ids[1][7] == 'g' && ids[2][7] == 'l' && ids[3][7] == 't';
    assert forall i :: 0 <= i < 4 ==> |ids[i]| > 7 && ids[i][0] == 's';
  }

  /** `createSampleSocialTasks`: one task per platform, in platform order, none completed. */
  function CreateSampleSocialTasks(now: int): (r: seq<SocialTask>)
    ensures |r| == 5
    ensures forall i :: 0 <= i < |r| ==> !r[i].completed && r[i].platform == Platforms[i]
    ensures r[0] == CreateTwitterPostTask(SampleTweet, None, now)
    ensures r[1..] == SampleChecks
  {
    [CreateTwitterPostTask(SampleTweet, None, now)] + SampleChecks
  }

  /** The sample tasks have distinct ids, whatever the clock says. */
  lemma SampleIdsDistinct(now: int)
    ensures forall i, j :: 0 <= i < j < 5 ==> CreateSampleSocialTasks(now)[i].id != CreateSampleSocialTasks(now)[j].id
  {
    var r := CreateSampleSocialTasks(now);
    ClockIdHead("twitter", now);
    SampleChecksIds();
    forall i, j | 0 <= i < j < 5
      ensures r[i].id != r[j].id
    {
      assert r[j] == SampleChecks[j - 1];
      if 0 < i {
        assert r[i] == SampleChecks[i - 1];
      }
    }
  }
}
