/**
 * The `externalDeepLinks` builders of `src/lib/deepLinks.ts`: app-scheme
 * and web URLs for Twitter/X, Discord, GitHub, MetaMask, LinkedIn and
 * Telegram. Free text goes through `encodeURIComponent` and reads back
 * through `decodeURIComponent`; identifiers are pasted verbatim.
 */
module ExternalLinks {
  import opened Wrappers
  import opened Text
  import UriComponent

  const TwitterComposePrefix: string := "twitter://post?text="
  const TwitterProfilePrefix: string := "twitter://user?screen_name="
  const TwitterWebComposePrefix: string := "https://twitter.com/intent/tweet?text="
  const DiscordChannelsPrefix: string := "discord://channels/"
  const DiscordWebChannelsPrefix: string := "https://discord.com/channels/"
  const GitHubRepoPrefix: string := "github://repo/"
  const GitHubWebPrefix: string := "https://github.com/"
  const MetaMaskConnectUrl: string := "metamask://connect"
  const MetaMaskSendPrefix: string := "metamask://send?address="
  const MetaMaskWalletConnectPrefix: string := "metamask://wc?uri="
  const LinkedInSharePrefix: string := "https://www.linkedin.com/sharing/share-offsite/?url="
  const LinkedInProfilePrefix: string := "linkedin://profile/"
  const TelegramChatPrefix: string := "tg://resolve?domain="
  const TelegramSharePrefix: string := "https://t.me/share/url?url="

  /** The part of `r` after `prefix`, which `r` starts with. */
  function After(r: string, prefix: string): string
    requires StartsWith(r, prefix)
  {
    r[|prefix|..]
  }

  /** `'&'` is never written by the encoder, so it can separate encoded query values. */
  lemma NoAmpersand(s: string)
    ensures '&' !in UriComponent.Encode(s)
  {
    UriComponent.EncodeAvoids(s, '&');
  }

  /** A query that starts with `prefix` followed by text that decodes back to `text`. */
  function EncodedAfter(prefix: string, text: string): (r: string)
    ensures StartsWith(r, prefix) && UriComponent.Decode(After(r, prefix)) == Some(text)
    ensures '&' !in After(r, prefix) && '/' !in After(r, prefix)
  {
    UriComponent.DecodeEncode(text);
    NoAmpersand(text);
    var r := prefix + UriComponent.Encode(text);
    assert After(r, prefix) == UriComponent.Encode(text);
    r
  }

  /** `twitter.compose(text)`: the text reads back from the query. */
  function TwitterCompose(text: string): (r: string)
    ensures StartsWith(r, TwitterComposePrefix)
    ensures UriComponent.Decode(After(r, TwitterComposePrefix)) == Some(text)
  {
    EncodedAfter(TwitterComposePrefix, text)
  }

  /** `twitter.webCompose(text)`: the text reads back from the query. */
  function TwitterWebCompose(text: string): (r: string)
    ensures StartsWith(r, TwitterWebComposePrefix)
    ensures UriComponent.Decode(After(r, TwitterWebComposePrefix)) == Some(text)
  {
    EncodedAfter(TwitterWebComposePrefix, text)
  }

  /** `twitter.profile(username)`: the username is pasted verbatim, not encoded. */
  function TwitterProfile(username: string): (r: string)
    ensures StartsWith(r, TwitterProfilePrefix) && After(r, TwitterProfilePrefix) == username
  {
    var r := TwitterProfilePrefix + username;
    assert After(r, TwitterProfilePrefix) == username;
    r
  }

  /** `discord.channel(serverId, channelId)`: slash-free ids come back as the two path segments. */
  function DiscordChannel(serverId: string, channelId: string): (r: string)
    ensures StartsWith(r, DiscordChannelsPrefix)
    ensures '/' !in serverId && '/' !in channelId ==>
      Split(After(r, DiscordChannelsPrefix), "/") == [serverId, channelId]
  {
    PathAfter(DiscordChannelsPrefix, [serverId, channelId])
  }

  /** `discord.webChannel(serverId, channelId)`: slash-free ids come back as the two path segments. */
  function DiscordWebChannel(serverId: string, channelId: string): (r: string)
    ensures StartsWith(r, DiscordWebChannelsPrefix)
    ensures '/' !in serverId && '/' !in channelId ==>
      Split(After(r, DiscordWebChannelsPrefix), "/") == [serverId, channelId]
  {
    PathAfter(DiscordWebChannelsPrefix, [serverId, channelId])
  }

  /** `discord.server(serverId)`: the id is pasted verbatim. */
  function DiscordServer(serverId: string): (r: string)
    ensures StartsWith(r, DiscordChannelsPrefix) && After(r, DiscordChannelsPrefix) == serverId
  {
    var r := DiscordChannelsPrefix + serverId;
    assert After(r, DiscordChannelsPrefix) == serverId;
    r
  }

  /** `prefix` followed by the parts joined with `/`; slash-free parts split back out. */
  function PathAfter(prefix: string, parts: seq<string>): (r: string)
    requires |parts| >= 1
    ensures StartsWith(r, prefix)
    ensures (forall i :: 0 <= i < |parts| ==> '/' !in parts[i]) ==> Split(After(r, prefix), "/") == parts
  {
    var r := prefix + Join(parts, "/");
    assert After(r, prefix) == Join(parts, "/");
    SplitJoinWhenFree(parts, '/');
    r
  }

  lemma SplitJoinWhenFree(parts: seq<string>, c: char)
    requires |parts| >= 1
    ensures (forall i :: 0 <= i < |parts| ==> c !in parts[i]) ==> Split(Join(parts, [c]), [c]) == parts
  {
    if forall i :: 0 <= i < |parts| ==> c !in parts[i] {
      SplitJoin(parts, c);
    }
  }

  /** `github.repo(owner, repo)`: slash-free names come back as the two path segments. */
  function GitHubRepo(owner: string, repo: string): (r: string)
    ensures StartsWith(r, GitHubRepoPrefix)
    ensures '/' !in owner && '/' !in repo ==> Split(After(r, GitHubRepoPrefix), "/") == [owner, repo]
  {
    PathAfter(GitHubRepoPrefix, [owner, repo])
  }

  /** The decimal text of an integer holds no `/`. */
  lemma IntStringSlashFree(n: int)
    ensures '/' !in IntString(n)
  {
    var d := DecimalString(if n < 0 then -n else n);
    assert forall i :: 0 <= i < |d| ==> IsDigit(d[i]);
    assert IntString(n) == d || IntString(n) == "-" + d;
  }

  /** A repository page `<owner>/<repo>/<page>/<number>` splits back into its four segments. */
  lemma RepoPageSplits(owner: string, repo: string, page: string, n: int)
    requires '/' !in page
    ensures var parts := [owner, repo, page, IntString(n)];
      '/' !in owner && '/' !in repo ==> Split(After(PathAfter(GitHubWebPrefix, parts), GitHubWebPrefix), "/") == parts
  {
    IntStringSlashFree(n);
    var parts := [owner, repo, page, IntString(n)];
    if '/' !in owner && '/' !in repo {
      assert forall i :: 0 <= i < |parts| ==> '/' !in parts[i];
    }
  }

  /** `github.issue(owner, repo, issue)`: the segments are owner, repo, `issues` and the number, which parses back. */
  function GitHubIssue(owner: string, repo: string, issue: int): (r: string)
    ensures StartsWith(r, GitHubWebPrefix)
    ensures '/' !in owner && '/' !in repo ==>
      Split(After(r, GitHubWebPrefix), "/") == [owner, repo, "issues", IntString(issue)]
      && ParseInt(IntString(issue)) == Some(issue)
  {
    ParseIntString(issue);
    RepoPageSplits(owner, repo, "issues", issue);
    PathAfter(GitHubWebPrefix, [owner, repo, "issues", IntString(issue)])
  }

  /** `github.pr(owner, repo, pr)`: the segments are owner, repo, `pull` and the number, which parses back. */
  function GitHubPr(owner: string, repo: string, pr: int): (r: string)
    ensures StartsWith(r, GitHubWebPrefix)
    ensures '/' !in owner && '/' !in repo ==>
      Split(After(r, GitHubWebPrefix), "/") == [owner, repo, "pull", IntString(pr)]
      && ParseInt(IntString(pr)) == Some(pr)
  {
    ParseIntString(pr);
    RepoPageSplits(owner, repo, "pull", pr);
    PathAfter(GitHubWebPrefix, [owner, repo, "pull", IntString(pr)])
  }

  /** `metamask.send(address, amount)`: with no `&` in either, the query splits into the address and `amount=<amount>`. */
  function MetaMaskSend(address: string, amount: string): (r: string)
    ensures StartsWith(r, MetaMaskSendPrefix)
    ensures '&' !in address && '&' !in amount ==>
      Split(After(r, MetaMaskSendPrefix), "&") == [address, "amount=" + amount]
  {
    var r := MetaMaskSendPrefix + address + "&amount=" + amount;
    assert After(r, MetaMaskSendPrefix) == address + "&" + ("amount=" + amount);
    assert Join([address, "amount=" + amount], "&") == address + "&" + ("amount=" + amount);
    assert '&' !in amount ==> '&' !in "amount=" + amount;
    SplitJoinWhenFree([address, "amount=" + amount], '&');
    r
  }

  /** `metamask.walletConnect(uri)`: the URI reads back from the query. */
  function MetaMaskWalletConnect(uri: string): (r: string)
    ensures StartsWith(r, MetaMaskWalletConnectPrefix)
    ensures UriComponent.Decode(After(r, MetaMaskWalletConnectPrefix)) == Some(uri)
  {
    EncodedAfter(MetaMaskWalletConnectPrefix, uri)
  }

  /**
   * `prefix + encodeURIComponent(url)` followed by `&<key>=` and the
   * encoded optional value when it is truthy: the query splits on `&` into
   * the encoded URL and, when present, the encoded value behind its key.
   */
  function ShareQuery(prefix: string, url: string, key: string, value: Option<string>): (r: string)
    requires '&' !in key
    ensures StartsWith(r, prefix)
    ensures var parts := Split(After(r, prefix), "&");
      |parts| == (if Truthy(value) then 2 else 1)
      && UriComponent.Decode(parts[0]) == Some(url)
      && (Truthy(value) ==>
            StartsWith(parts[1], key + "=")
            && UriComponent.Decode(After(parts[1], key + "=")) == Some(value.value))
  {
    var first := EncodedAfter(prefix, url);
    if Truthy(value) then
      var second := EncodedAfter(key + "=", value.value);
      assert '&' !in second;
      QueryPairSplits(prefix, first, second);
      first + "&" + second
    else
      SplitWithout(After(first, prefix), '&');
      first
  }

  /** Two `&`-free query values joined by `&` after a prefix split back into the two. */
  lemma QueryPairSplits(prefix: string, first: string, second: string)
    requires StartsWith(first, prefix) && '&' !in After(first, prefix) && '&' !in second
    ensures StartsWith(first + "&" + second, prefix)
    ensures Split(After(first + "&" + second, prefix), "&") == [After(first, prefix), second]
  {
    var e := After(first, prefix);
    var r := first + "&" + second;
    assert r[..|prefix|] == first[..|prefix|];
    assert After(r, prefix) == Join([e, second], "&");
    SplitJoin([e, second], '&');
  }

  /** `linkedin.share(url, title)`: the URL, and a non-empty title, read back from the query. */
  function LinkedInShare(url: string, title: Option<string>): (r: string)
    ensures StartsWith(r, LinkedInSharePrefix)
    ensures var parts := Split(After(r, LinkedInSharePrefix), "&");
      |parts| == (if Truthy(title) then 2 else 1)
      && UriComponent.Decode(parts[0]) == Some(url)
      && (Truthy(title) ==> StartsWith(parts[1], "title=") && UriComponent.Decode(After(parts[1], "title=")) == Some(title.value))
  {
    assert "title" + "=" == "title=";
    ShareQuery(LinkedInSharePrefix, url, "title", title)
  }

  /** `linkedin.profile(profileId)`: the id is pasted verbatim. */
  function LinkedInProfile(profileId: string): (r: string)
    ensures StartsWith(r, LinkedInProfilePrefix) && After(r, LinkedInProfilePrefix) == profileId
  {
    var r := LinkedInProfilePrefix + profileId;
    assert After(r, LinkedInProfilePrefix) == profileId;
    r
  }

  /** `telegram.chat(username)`: the username is pasted verbatim. */
  function TelegramChat(username: string): (r: string)
    ensures StartsWith(r, TelegramChatPrefix) && After(r, TelegramChatPrefix) == username
  {
    var r := TelegramChatPrefix + username;
    assert After(r, TelegramChatPrefix) == username;
    r
  }

  /** `telegram.share(url, text)`: the URL, and a non-empty text, read back from the query. */
  function TelegramShare(url: string, text: Option<string>): (r: string)
    ensures StartsWith(r, TelegramSharePrefix)
    ensures var parts := Split(After(r, TelegramSharePrefix), "&");
      |parts| == (if Truthy(text) then 2 else 1)
      && UriComponent.Decode(parts[0]) == Some(url)
      && (Truthy(text) ==> StartsWith(parts[1], "text=") && UriComponent.Decode(After(parts[1], "text=")) == Some(text.value))
  {
    assert "text" + "=" == "text=";
    ShareQuery(TelegramSharePrefix, url, "text", text)
  }
}
