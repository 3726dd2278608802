/**
 * The deep-link codec of `src/lib/deepLinks.ts`: action descriptors to and
 * from `prodowl://…` app links and `<base>/app/…` web links, and the
 * dispatcher that hands a parsed link to the matching handler.
 */
module DeepLinks {
  import opened Wrappers
  import opened Text
  import UriComponent

  datatype Action = CompleteTask | OpenTask | CheckHabit | StartTimer | OpenNote | External

  datatype DeepLink = DeepLink(
    action: Action,
    id: Option<string>,
    params: Option<map<string, string>>,
    externalUrl: Option<string>)

  const Scheme: string := "prodowl://"
  const WebMarker: string := "/app/"
  const DefaultDuration: string := "25"

  /** A descriptor that carries only an action and an id. */
  function WithId(action: Action, id: Option<string>): DeepLink {
    DeepLink(action, id, None, None)
  }

  /** The start-timer descriptor `{ action: 'start-timer', params: { duration } }`. */
  function TimerLink(duration: string): DeepLink {
    DeepLink(StartTimer, None, Some(map["duration" := duration]), None)
  }

  /** The `i`-th element of a destructured `split` result, `undefined` past its end. */
  function Segment(segs: seq<string>, i: nat): Option<string> {
    if i < |segs| then Some(segs[i]) else None
  }

  predicate KnownHead(head: string) {
    head == "task" || head == "habit" || head == "timer" || head == "note" || head == "external"
  }

  /**
   * The `switch` of `parseDeepLinkPath` over the destructured segments: the
   * first names the action, the second is the id. `None` stands both for
   * the `null` of an unknown action and for the `URIError` of a malformed
   * external URL, which the caller catches.
   */
  function ParseSegments(segs: seq<string>): (r: Option<DeepLink>)
    requires |segs| >= 1
    ensures r.None? <==>
      !KnownHead(segs[0])
      || (segs[0] == "external" && UriComponent.Decode(OrElse(Segment(segs, 1), "")).None?)
    ensures r.Some? && segs[0] == "task" ==>
      r.value.id == Segment(segs, 1)
      && (r.value.action == CompleteTask <==> Segment(segs, 2) == Some("complete"))
    ensures r.Some? && segs[0] == "task" ==> r.value.action in {CompleteTask, OpenTask} && r.value.params.None? && r.value.externalUrl.None?
    ensures segs[0] == "habit" ==> r == Some(WithId(CheckHabit, Segment(segs, 1)))
    ensures segs[0] == "timer" ==> r == Some(TimerLink(OrElse(Segment(segs, 1), DefaultDuration)))
    ensures segs[0] == "note" ==> r == Some(WithId(OpenNote, Segment(segs, 1)))
    ensures r.Some? && segs[0] == "external" ==> r.value == DeepLink(External, None, None, UriComponent.Decode(OrElse(Segment(segs, 1), "")))
  {
    var id := Segment(segs, 1);
    if segs[0] == "task" then
      if Segment(segs, 2) == Some("complete") then Some(WithId(CompleteTask, id)) else Some(WithId(OpenTask, id))
    else if segs[0] == "habit" then
      Some(WithId(CheckHabit, id))
    else if segs[0] == "timer" then
      Some(TimerLink(OrElse(id, DefaultDuration)))
    else if segs[0] == "note" then
      Some(WithId(OpenNote, id))
    else if segs[0] == "external" then
      match UriComponent.Decode(OrElse(id, ""))
      case None => None
      case Some(u) => Some(DeepLink(External, None, None, Some(u)))
    else None
  }

  /** `parseDeepLinkPath(path)`: the path split on `/`. */
  function ParsePath(path: string): Option<DeepLink> {
    ParseSegments(Split(path, "/"))
  }

  /** `url.replace(APP_SCHEME, '')` on a URL that starts with the scheme strips exactly that prefix. */
  lemma StripScheme(url: string)
    requires StartsWith(url, Scheme)
    ensures ReplaceFirst(url, Scheme, "") == url[|Scheme|..]
  {
    var post := url[|Scheme|..];
    assert url == [] + Scheme + post;
    ReplaceFirstAt([], Scheme, post, "");
  }

  /**
   * `parseDeepLink(url)` as written: app links are parsed from what follows
   * the scheme, web links from `url.split('/app/')[1]`, which is only the
   * text between the first and the second `/app/`.
   */
  function ParseDeepLinkAsWritten(url: string): (r: Option<DeepLink>)
    ensures !StartsWith(url, Scheme) && !Contains(url, WebMarker) ==> r.None?
  {
    if StartsWith(url, Scheme) then ParsePath(ReplaceFirst(url, Scheme, ""))
    else if Contains(url, WebMarker) then ParsePath(Split(url, WebMarker)[1])
    else None
  }

  /**
   * `parseDeepLink(url)` with the web branch reading everything after the
   * first `/app/`. The scheme test wins over the web test, and a URL with
   * neither gives `None`.
   */
  function ParseDeepLink(url: string): (r: Option<DeepLink>)
    ensures StartsWith(url, Scheme) ==> r == ParsePath(url[|Scheme|..])
    ensures !StartsWith(url, Scheme) && IndexOf(url, WebMarker).Some? ==>
      r == ParsePath(url[IndexOf(url, WebMarker).value + |WebMarker|..])
    ensures !StartsWith(url, Scheme) && !Contains(url, WebMarker) ==> r.None?
  {
    if StartsWith(url, Scheme) then
      StripScheme(url);
      ParsePath(ReplaceFirst(url, Scheme, ""))
    else
      match IndexOf(url, WebMarker)
      case None => None
      case Some(i) => ParsePath(url[i + |WebMarker|..])
  }

  /** The two parsers agree on every URL whose web path holds no second `/app/`. */
  lemma AsWrittenAgrees(url: string)
    requires !StartsWith(url, Scheme) ==>
      IndexOf(url, WebMarker).Some? ==> !Contains(url[IndexOf(url, WebMarker).value + |WebMarker|..], WebMarker)
    ensures ParseDeepLinkAsWritten(url) == ParseDeepLink(url)
  {
    if !StartsWith(url, Scheme) && Contains(url, WebMarker) {
      var i := IndexOf(url, WebMarker).value;
      var rest := url[i + |WebMarker|..];
      assert Split(url, WebMarker) == [url[..i]] + Split(rest, WebMarker);
      assert Split(rest, WebMarker) == [rest];
    } else if StartsWith(url, Scheme) {
      StripScheme(url);
    }
  }

  /** The text `${link.id}` prints: `undefined` for a missing id. */
  function IdText(id: Option<string>): string {
    match id
    case None => "undefined"
    case Some(s) => s
  }

  /** `link.params?.duration || '25'` */
  function DurationText(params: Option<map<string, string>>): (d: string)
    ensures d != []
  {
    if params.Some? && "duration" in params.value then OrElse(Some(params.value["duration"]), DefaultDuration)
    else DefaultDuration
  }

  /** The segments of the path `generateDeepLink` writes after the scheme, e.g. `task`, `${link.id}`, `complete`. */
  function AppSegments(link: DeepLink): (segs: seq<string>)
    ensures 2 <= |segs| <= 3
  {
    match link.action
    case CompleteTask => ["task", IdText(link.id), "complete"]
    case OpenTask => ["task", IdText(link.id)]
    case CheckHabit => ["habit", IdText(link.id), "check"]
    case StartTimer => ["timer", DurationText(link.params)]
    case OpenNote => ["note", IdText(link.id)]
    case External => ["external", UriComponent.Encode(OrElse(link.externalUrl, ""))]
  }

  /** The path `generateDeepLink` writes after the scheme: its segments joined by `/`. */
  function AppPath(link: DeepLink): string {
    Join(AppSegments(link), "/")
  }

  /** `generateDeepLink(link)`: an app link, always under the scheme. */
  function GenerateDeepLink(link: DeepLink): (r: string)
    ensures StartsWith(r, Scheme) && r[|Scheme|..] == AppPath(link)
  {
    Scheme + AppPath(link)
  }

  /** `generateWebDeepLink(link, baseUrl)`: the app path with the scheme dropped, under `<base>/app/`. */
  function GenerateWebDeepLink(link: DeepLink, baseUrl: string): (r: string)
    ensures r == baseUrl + WebMarker + AppPath(link)
  {
    var appPath := ReplaceFirst(GenerateDeepLink(link), Scheme, "");
    StripScheme(GenerateDeepLink(link));
    baseUrl + WebMarker + appPath
  }

  /**
   * The descriptors `generateDeepLink` can reproduce: a slash-free id for
   * the task, habit and note actions, exactly one slash-free non-empty
   * duration for the timer, any URL for an external link.
   */
  predicate Canonical(link: DeepLink) {
    match link.action
    case StartTimer =>
      link.id.None? && link.externalUrl.None? && link.params.Some?
      && link.params.value.Keys == {"duration"}
      && link.params.value["duration"] != [] && '/' !in link.params.value["duration"]
    case External => link.id.None? && link.params.None? && link.externalUrl.Some?
    case _ => link.id.Some? && '/' !in link.id.value && link.params.None? && link.externalUrl.None?
  }

  /** Splitting `head/a` on `/` for slash-free parts. */
  lemma SplitTwo(head: string, a: string)
    requires '/' !in head && '/' !in a
    ensures Split(head + "/" + a, "/") == [head, a]
  {
    assert Join([head, a], "/") == head + "/" + a;
    SplitJoin([head, a], '/');
  }

  /** The segments of a canonical descriptor hold no `/`. */
  lemma AppSegmentsSlashFree(link: DeepLink)
    requires Canonical(link)
    ensures forall i :: 0 <= i < |AppSegments(link)| ==> '/' !in AppSegments(link)[i]
  {
    if link.action == External {
      UriComponent.EncodeAvoids(link.externalUrl.value, '/');
    }
  }

  /** Parsing the segments of a canonical descriptor gives it back. */
  lemma SegmentsRoundTrip(link: DeepLink)
    requires Canonical(link)
    ensures ParseSegments(AppSegments(link)) == Some(link)
  {
    if link.action == StartTimer {
      assert link.params.value == map["duration" := link.params.value["duration"]];
    } else if link.action == External {
      UriComponent.DecodeEncode(link.externalUrl.value);
    }
  }

  /** Parsing the generated path gives the descriptor back. */
  lemma PathRoundTrip(link: DeepLink)
    requires Canonical(link)
    ensures ParsePath(AppPath(link)) == Some(link)
  {
    AppSegmentsSlashFree(link);
    SplitJoin(AppSegments(link), '/');
    SegmentsRoundTrip(link);
  }

  /** An external link carries its URL through percent-encoding, which never writes a `/`. */
  lemma ExternalPathRoundTrip(u: string)
    ensures ParsePath(AppPath(DeepLink(External, None, None, Some(u)))) == Some(DeepLink(External, None, None, Some(u)))
  {
    PathRoundTrip(DeepLink(External, None, None, Some(u)));
  }

  /** `parseDeepLink(generateDeepLink(link)) == link` for every reproducible descriptor, under either parser. */
  lemma RoundTrip(link: DeepLink)
    requires Canonical(link)
    ensures ParseDeepLink(GenerateDeepLink(link)) == Some(link)
    ensures ParseDeepLinkAsWritten(GenerateDeepLink(link)) == Some(link)
  {
    PathRoundTrip(link);
    AsWrittenAgrees(GenerateDeepLink(link));
  }

  /** A web link whose `<base>/app/` prefix does not spell the scheme does not start with the scheme. */
  lemma WebLinkNotScheme(baseUrl: string, path: string)
    requires !StartsWith(baseUrl + WebMarker, Scheme)
    ensures !StartsWith(baseUrl + WebMarker + path, Scheme)
  {
    var pre := baseUrl + WebMarker;
    var url := pre + path;
    if |pre| >= |Scheme| {
      assert pre[..|Scheme|] == url[..|Scheme|];
    } else {
      assert url[|baseUrl|] == '/' != Scheme[|baseUrl|];
    }
  }

  /** In a web link whose base holds no `/app/`, the first `/app/` is the one after the base. */
  lemma WebMarkerAfterBase(baseUrl: string, path: string)
    requires !Contains(baseUrl + "/app", WebMarker)
    ensures IndexOf(baseUrl + WebMarker + path, WebMarker) == Some(|baseUrl|)
    ensures (baseUrl + WebMarker + path)[|baseUrl| + |WebMarker|..] == path
  {
    assert WebMarker[..|WebMarker| - 1] == "/app";
    NoOccurrenceBefore(baseUrl, WebMarker, path);
    IndexOfAfter(baseUrl, WebMarker, path);
  }

  /**
   * A web link built on a base that neither holds `/app/` nor spells the
   * scheme parses to the descriptor it was built from.
   */
  lemma WebRoundTrip(link: DeepLink, baseUrl: string)
    requires Canonical(link)
    requires !Contains(baseUrl + "/app", WebMarker) && !StartsWith(baseUrl + WebMarker, Scheme)
    ensures ParseDeepLink(GenerateWebDeepLink(link, baseUrl)) == Some(link)
    ensures ParseDeepLink(GenerateWebDeepLink(link, baseUrl)) == ParseDeepLink(GenerateDeepLink(link))
  {
    WebLinkNotScheme(baseUrl, AppPath(link));
    WebMarkerAfterBase(baseUrl, AppPath(link));
    PathRoundTrip(link);
    RoundTrip(link);
  }

  /** Under the parser as written the web round trip holds only when the app path holds no `/app/`. */
  lemma WebRoundTripAsWritten(link: DeepLink, baseUrl: string)
    requires Canonical(link) && !Contains(AppPath(link), WebMarker)
    requires !Contains(baseUrl + "/app", WebMarker) && !StartsWith(baseUrl + WebMarker, Scheme)
    ensures ParseDeepLinkAsWritten(GenerateWebDeepLink(link, baseUrl)) == Some(link)
  {
    WebRoundTrip(link, baseUrl);
    WebMarkerAfterBase(baseUrl, AppPath(link));
    AsWrittenAgrees(GenerateWebDeepLink(link, baseUrl));
  }

  /**
   * The web link for completing the task with id `app` is read back by the
   * parser as written as opening a task with no id, while the corrected
   * parser reads it back faithfully.
   */
  lemma WebLinkFinding(baseUrl: string)
    requires !Contains(baseUrl + "/app", WebMarker) && !StartsWith(baseUrl + WebMarker, Scheme)
    ensures ParseDeepLinkAsWritten(GenerateWebDeepLink(WithId(CompleteTask, Some("app")), baseUrl))
      == Some(WithId(OpenTask, None))
    ensures ParseDeepLink(GenerateWebDeepLink(WithId(CompleteTask, Some("app")), baseUrl))
      == Some(WithId(CompleteTask, Some("app")))
  {
    var link := WithId(CompleteTask, Some("app"));
    CompleteAppPath();
    AsWrittenSecondMarker(baseUrl);
    assert Canonical(link);
    WebRoundTrip(link, baseUrl);
  }

  /** Everything after a second `/app/` is dropped: `<base>/app/task/app/complete` opens a task with no id. */
  lemma AsWrittenSecondMarker(baseUrl: string)
    requires !Contains(baseUrl + "/app", WebMarker) && !StartsWith(baseUrl + WebMarker, Scheme)
    ensures ParseDeepLinkAsWritten(baseUrl + WebMarker + ("task" + WebMarker + "complete")) == Some(WithId(OpenTask, None))
  {
    var url := baseUrl + WebMarker + ("task" + WebMarker + "complete");
    SecondMarkerWebBranch(baseUrl);
    assert ParseDeepLinkAsWritten(url) == ParsePath("task");
    ParseTaskAlone();
  }

  /** The as-written parser takes the web branch on that link, and the split leaves only `task`. */
  lemma SecondMarkerWebBranch(baseUrl: string)
    requires !Contains(baseUrl + "/app", WebMarker) && !StartsWith(baseUrl + WebMarker, Scheme)
    ensures var url := baseUrl + WebMarker + ("task" + WebMarker + "complete");
      !StartsWith(url, Scheme) && Contains(url, WebMarker) && |Split(url, WebMarker)| > 1 && Split(url, WebMarker)[1] == "task"
  {
    var path := "task" + WebMarker + "complete";
    var url := baseUrl + WebMarker + path;
    WebLinkNotScheme(baseUrl, path);
    WebMarkerAfterBase(baseUrl, path);
    assert WebMarker[..|WebMarker| - 1] == "/app";
    NoOccurrenceBefore(baseUrl, WebMarker, path);
    SplitFirst(baseUrl, WebMarker, path);
    SecondMarkerSplit("task", "complete");
  }

  /** The path of the complete-task link for id `app` holds a second marker. */
  lemma CompleteAppPath()
    ensures AppPath(WithId(CompleteTask, Some("app"))) == "task" + WebMarker + "complete"
  {
    var segs := ["task", "app", "complete"];
    assert segs[1..] == ["app", "complete"];
    assert segs[1..][1..] == ["complete"];
    assert Join(segs, "/") == "task" + "/" + ("app" + "/" + "complete");
    assert "/" + ("app" + "/" + "complete") == WebMarker + "complete";
  }

  /** Two slash-free parts around the marker: splitting on `/app/` cuts the text into exactly those parts. */
  lemma SecondMarkerSplit(pre: string, post: string)
    requires '/' !in pre && '/' !in post
    ensures Split(pre + WebMarker + post, WebMarker) == [pre, post]
  {
    assert WebMarker[0] == '/';
    NoOccurrenceWithoutHead(pre, WebMarker, post);
    SplitFirst(pre, WebMarker, post);
    NotContainsWithoutHead(post, WebMarker);
  }

  /** A bare `task` path opens a task with no id. */
  lemma ParseTaskAlone()
    ensures ParsePath("task") == Some(WithId(OpenTask, None))
  {
    SplitWithout("task", '/');
  }

  /** `habit/<id>` and `habit/<id>/check` both mean check-habit: parsing is not injective. */
  lemma HabitLinksCollide(id: string)
    requires '/' !in id
    ensures ParsePath(Join(["habit", id], "/")) == Some(WithId(CheckHabit, Some(id)))
    ensures ParsePath(Join(["habit", id, "check"], "/")) == Some(WithId(CheckHabit, Some(id)))
  {
    SplitJoin(["habit", id], '/');
    SplitJoin(["habit", id, "check"], '/');
  }

  /** A timer path without a duration, or with an empty one, starts the default 25-minute timer. */
  lemma TimerDefaults()
    ensures ParsePath("timer") == Some(TimerLink(DefaultDuration))
    ensures ParsePath("timer/") == Some(TimerLink(DefaultDuration))
  {
    SplitWithout("timer", '/');
    assert "timer/" == "timer" + "/" + [];
    SplitTwo("timer", []);
  }

  /** Generating a timer link without a duration writes the default 25. */
  lemma TimerGenerateDefault()
    ensures GenerateDeepLink(DeepLink(StartTimer, None, None, None)) == "prodowl://timer/25"
  {
  }

  /** Which optional callbacks the caller supplied. */
  datatype Handlers = Handlers(
    onCompleteTask: bool,
    onOpenTask: bool,
    onCheckHabit: bool,
    onStartTimer: bool,
    onOpenNote: bool,
    onExternal: bool)

  /** The callback invocation a link causes, with its argument (`None` for `undefined`, or for `NaN` as a duration). */
  datatype Invocation =
    | CompleteTaskCall(taskId: Option<string>)
    | OpenTaskCall(taskId: Option<string>)
    | CheckHabitCall(habitId: Option<string>)
    | StartTimerCall(duration: Option<int>)
    | OpenNoteCall(noteId: Option<string>)
    | ExternalCall(url: Option<string>)

  function HandlerFor(handlers: Handlers, action: Action): bool {
    match action
    case CompleteTask => handlers.onCompleteTask
    case OpenTask => handlers.onOpenTask
    case CheckHabit => handlers.onCheckHabit
    case StartTimer => handlers.onStartTimer
    case OpenNote => handlers.onOpenNote
    case External => handlers.onExternal
  }

  function InvokedAction(call: Invocation): Action {
    match call
    case CompleteTaskCall(_) => CompleteTask
    case OpenTaskCall(_) => OpenTask
    case CheckHabitCall(_) => CheckHabit
    case StartTimerCall(_) => StartTimer
    case OpenNoteCall(_) => OpenNote
    case ExternalCall(_) => External
  }

  /** The call a descriptor makes; the timer's duration goes through `parseInt(…, 10)`. */
  function CallFor(link: DeepLink): (call: Invocation)
    ensures InvokedAction(call) == link.action
  {
    match link.action
    case CompleteTask => CompleteTaskCall(link.id)
    case OpenTask => OpenTaskCall(link.id)
    case CheckHabit => CheckHabitCall(link.id)
    case StartTimer => StartTimerCall(ParseInt(DurationText(link.params)))
    case OpenNote => OpenNoteCall(link.id)
    case External => ExternalCall(link.externalUrl)
  }

  /**
   * What the handler does with a parse result: the returned flag, and the
   * one callback that runs, if any. The flag is false exactly when there is
   * no descriptor; a callback runs exactly when there is one and the
   * callback for its action was supplied, and no other callback runs.
   */
  function Dispatch(parsed: Option<DeepLink>, handlers: Handlers): (r: (bool, Option<Invocation>))
    ensures r.0 <==> parsed.Some?
    ensures r.1.Some? <==> parsed.Some? && HandlerFor(handlers, parsed.value.action)
    ensures r.1.Some? ==> r.1.value == CallFor(parsed.value) && InvokedAction(r.1.value) == parsed.value.action
  {
    match parsed
    case None => (false, None)
    case Some(link) =>
      if HandlerFor(handlers, link.action) then (true, Some(CallFor(link))) else (true, None)
  }

  /** `handleIncomingDeepLink(url, handlers)`, which parses with `parseDeepLink` as written. */
  function HandleIncomingDeepLink(url: string, handlers: Handlers): (r: (bool, Option<Invocation>))
    ensures r.0 <==> ParseDeepLinkAsWritten(url).Some?
    ensures r.1.Some? <==> r.0 && HandlerFor(handlers, ParseDeepLinkAsWritten(url).value.action)
    ensures r.1.Some? ==> r.1.value == CallFor(ParseDeepLinkAsWritten(url).value)
  {
    Dispatch(ParseDeepLinkAsWritten(url), handlers)
  }

  /** The same dispatcher over the corrected parser, which reads every generated web link back. */
  function HandleIncomingDeepLinkCorrected(url: string, handlers: Handlers): (r: (bool, Option<Invocation>))
    ensures r.0 <==> ParseDeepLink(url).Some?
    ensures r.1.Some? <==> r.0 && HandlerFor(handlers, ParseDeepLink(url).value.action)
    ensures r.1.Some? ==> r.1.value == CallFor(ParseDeepLink(url).value)
  {
    Dispatch(ParseDeepLink(url), handlers)
  }

  /**
   * On the web link for completing the task `app`, the handler as written
   * opens a task with no id; the corrected one completes task `app`.
   */
  lemma WebLinkDispatchFinding(baseUrl: string, handlers: Handlers)
    requires !Contains(baseUrl + "/app", WebMarker) && !StartsWith(baseUrl + WebMarker, Scheme)
    requires handlers.onOpenTask && handlers.onCompleteTask
    ensures HandleIncomingDeepLink(GenerateWebDeepLink(WithId(CompleteTask, Some("app")), baseUrl), handlers)
      == (true, Some(OpenTaskCall(None)))
    ensures HandleIncomingDeepLinkCorrected(GenerateWebDeepLink(WithId(CompleteTask, Some("app")), baseUrl), handlers)
      == (true, Some(CompleteTaskCall(Some("app"))))
  {
    WebLinkFinding(baseUrl);
  }

  /** A generated timer link hands the timer callback the number it was written with. */
  lemma TimerLinkStartsTimer(minutes: nat, handlers: Handlers)
    requires handlers.onStartTimer
    ensures HandleIncomingDeepLink(GenerateDeepLink(TimerLink(DecimalString(minutes))), handlers)
      == (true, Some(StartTimerCall(Some(minutes))))
  {
    var d := DecimalString(minutes);
    var link := TimerLink(d);
    assert '/' !in d by {
      assert forall i :: 0 <= i < |d| ==> IsDigit(d[i]);
    }
    RoundTrip(link);
    var url := GenerateDeepLink(link);
    assert ParseDeepLinkAsWritten(url) == Some(link);
    ParseIntDecimal(minutes);
    assert CallFor(link) == StartTimerCall(Some(minutes));
  }

  /** A generated external link hands the external callback the exact URL it was written with. */
  lemma ExternalLinkOpensUrl(url: string, handlers: Handlers)
    requires handlers.onExternal
    ensures HandleIncomingDeepLink(GenerateDeepLink(DeepLink(External, None, None, Some(url))), handlers)
      == (true, Some(ExternalCall(Some(url))))
  {
    RoundTrip(DeepLink(External, None, None, Some(url)));
  }
}
