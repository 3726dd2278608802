/**
 * The app store: the current view, the mascot's mood and message, the
 * notification list (newest first, at most 50), and the user's name. Ids,
 * the clock and the random message pick are parameters.
 */
module App {
  import opened Wrappers
  import opened Seqs
  import opened Text
  import opened Types

  /** The three stock messages of each mood. */
  function MascotMessages(mood: MascotMood): (r: seq<string>)
    ensures |r| == 3
  {
    match mood
    case Happy => ["You're doing amazing!", "Keep up the great work!", "I'm so proud of you!"]
    case Sad => ["I've been waiting here all day...", "Your tasks miss you.", "Did you forget about me?"]
    case Excited => ["Let's crush some tasks today!", "I can feel the productivity!", "Ready to be LEGENDARY?"]
    case Disappointed => ["I'm not mad, just disappointed.", "Your future self just texted. They're concerned.",
                          "Must be nice having zero responsibilities."]
    case Scheming => ["I have some tasks you might want to see...", "Your friends are being productive right now...",
                      "There's a deadline approaching... just saying."]
    case Celebrating => ["YESSS! You're on FIRE!", "WHO IS THIS PRODUCTIVITY LEGEND?!",
                         "Achievement unlocked: Actually Did The Thing!"]
    case Neutral => ["Ready when you are!", "What should we work on?", "Let's make today count."]
  }

  /** `getMascotMessage`: one of the mood's stock messages, picked by `random` in [0, 1). */
  function GetMascotMessage(mood: MascotMood, random: real): (r: string)
    requires 0.0 <= random < 1.0
    ensures r in MascotMessages(mood)
  {
    Pick(MascotMessages(mood), random)
  }

  const InitialMascotMessage := "Ready when you are!"

  /** The mascot `setMascotMood` installs: the given message when it is non-empty, else a stock one of the new mood. */
  function MascotAfter(mood: MascotMood, message: Option<string>, random: real, now: int): (m: MascotState)
    requires 0.0 <= random < 1.0
    ensures m.mood == mood && m.lastInteraction == now
    ensures Truthy(message) ==> m.message == message.value
    ensures !Truthy(message) ==> m.message in MascotMessages(mood)
  {
    MascotState(mood, OrElse(message, GetMascotMessage(mood, random)), now)
  }

  /** What `addNotification` is given: a notification without id, time and read flag. */
  datatype NotificationDraft = NotificationDraft(
    kind: NotificationType,
    title: string,
    message: string,
    taskId: Option<string>,
    deepLink: Option<string>,
    mascotExpression: Expression)

  function NewNotification(draft: NotificationDraft, id: string, now: int): (n: Notification)
    ensures !n.read && n.id == id && n.createdAt == now
    ensures n.kind == draft.kind && n.title == draft.title && n.message == draft.message
    ensures n.taskId == draft.taskId && n.deepLink == draft.deepLink
    ensures n.mascotExpression == draft.mascotExpression
  {
    Notification(id, draft.kind, draft.title, draft.message, draft.taskId, draft.deepLink,
                 now, false, draft.mascotExpression)
  }

  const MaxNotifications := 50

  /** `[notification, ...list].slice(0, 50)`: newest first, the oldest dropped beyond 50. */
  function PushCapped(n: Notification, list: seq<Notification>): (r: seq<Notification>)
    ensures |r| == if |list| + 1 <= MaxNotifications then |list| + 1 else MaxNotifications
    ensures r[0] == n
    ensures r[1..] == list[..|r| - 1]
  {
    var all := [n] + list;
    var keep := if |all| <= MaxNotifications then |all| else MaxNotifications;
    assert all[..keep][1..] == list[..keep - 1];
    all[..keep]
  }

  predicate IsUnread(n: Notification) {
    !n.read
  }

  /** The number of notifications not yet read. */
  function UnreadCount(list: seq<Notification>): (r: nat)
    ensures r <= |list|
    ensures r == 0 <==> forall i :: 0 <= i < |list| ==> list[i].read
  {
    CountAllNone(list, IsUnread);
    Count(list, IsUnread)
  }

  /** Every notification with this id marked read, the rest as they were. */
  function MarkRead(list: seq<Notification>, id: string): (r: seq<Notification>)
    ensures |r| == |list|
    ensures forall i :: 0 <= i < |list| ==> r[i] == if list[i].id == id then list[i].(read := true) else list[i]
  {
    MapWhere(list, (n: Notification) => n.id == id, (n: Notification) => n.(read := true))
  }

  /** Marking read never raises the unread count, and leaves no unread notification with that id. */
  lemma {:induction false} MarkReadLowersUnread(list: seq<Notification>, id: string)
    ensures UnreadCount(MarkRead(list, id)) <= UnreadCount(list)
    ensures forall i :: 0 <= i < |list| && list[i].id == id ==> MarkRead(list, id)[i].read
    decreases |list|
  {
    if list != [] {
      MarkReadLowersUnread(list[1..], id);
      var r := MarkRead(list, id);
      assert r[1..] == MarkRead(list[1..], id);
      assert Filter(r, IsUnread) == (if IsUnread(r[0]) then [r[0]] else []) + Filter(r[1..], IsUnread);
    }
  }

  /** Marking the same id read twice is marking it once. */
  lemma MarkReadIdempotent(list: seq<Notification>, id: string)
    ensures MarkRead(MarkRead(list, id), id) == MarkRead(list, id)
  {
  }

  /** A pushed notification is unread, so the unread count is at least one and grows by at most one. */
  lemma {:induction false} PushCappedUnread(n: Notification, list: seq<Notification>)
    requires !n.read
    ensures 1 <= UnreadCount(PushCapped(n, list)) <= UnreadCount(list) + 1
  {
    var r := PushCapped(n, list);
    assert r == [n] + r[1..];
    assert Filter(r, IsUnread) == [n] + Filter(r[1..], IsUnread);
    PrefixUnread(list, |r| - 1);
  }

  /** A prefix holds no more unread notifications than the whole list. */
  lemma {:induction false} PrefixUnread(list: seq<Notification>, k: nat)
    requires k <= |list|
    ensures UnreadCount(list[..k]) <= UnreadCount(list)
    decreases |list|
  {
    FilterAppend(list[..k], list[k..], IsUnread);
    assert list[..k] + list[k..] == list;
  }

  class AppStore {
    var currentView: AppView
    var mascot: MascotState
    var notifications: seq<Notification>
    var userName: string

    /** The tasks view, a neutral mascot stamped `now`, no notifications, no name. */
    constructor(now: int)
      ensures currentView == TasksView
      ensures mascot == MascotState(Neutral, InitialMascotMessage, now)
      ensures notifications == [] && userName == ""
    {
      currentView := TasksView;
      mascot := MascotState(Neutral, InitialMascotMessage, now);
      notifications := [];
      userName := "";
    }

    method SetView(view: AppView)
      modifies this
      ensures currentView == view
      ensures mascot == old(mascot) && notifications == old(notifications) && userName == old(userName)
    {
      currentView := view;
    }

    method SetMascotMood(mood: MascotMood, message: Option<string>, random: real, now: int)
      requires 0.0 <= random < 1.0
      modifies this
      ensures mascot == MascotAfter(mood, message, random, now)
      ensures currentView == old(currentView) && notifications == old(notifications) && userName == old(userName)
    {
      mascot := MascotAfter(mood, message, random, now);
    }

    /** Puts a new unread notification first and keeps at most 50. */
    method AddNotification(draft: NotificationDraft, id: string, now: int)
      modifies this
      ensures notifications == PushCapped(NewNotification(draft, id, now), old(notifications))
      ensures |notifications| <= MaxNotifications
      ensures 1 <= GetUnreadCount() <= old(GetUnreadCount()) + 1
      ensures currentView == old(currentView) && mascot == old(mascot) && userName == old(userName)
    {
      PushCappedUnread(NewNotification(draft, id, now), notifications);
      notifications := PushCapped(NewNotification(draft, id, now), notifications);
    }

    method MarkNotificationRead(id: string)
      modifies this
      ensures notifications == MarkRead(old(notifications), id)
      ensures GetUnreadCount() <= old(GetUnreadCount())
      ensures currentView == old(currentView) && mascot == old(mascot) && userName == old(userName)
    {
      MarkReadLowersUnread(notifications, id);
      notifications := MarkRead(notifications, id);
    }

    method ClearNotifications()
      modifies this
      ensures notifications == [] && GetUnreadCount() == 0
      ensures currentView == old(currentView) && mascot == old(mascot) && userName == old(userName)
    {
      notifications := [];
    }

    function GetUnreadCount(): (r: nat)
      reads this
      ensures r <= |notifications|
    {
      UnreadCount(notifications)
    }

    method SetUserName(name: string)
      modifies this
      ensures userName == name
      ensures currentView == old(currentView) && mascot == old(mascot) && notifications == old(notifications)
    {
      userName := name;
    }
  }
}
