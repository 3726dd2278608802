/**
 * The mascot widget's behaviour: the periodic mood check, which looks at
 * the overdue tasks, today's habits and the time since the last
 * interaction and may install a new mood, and the avatar click. The
 * polling interval is left out; one check is one call.
 */
module Mascot {
  import opened Wrappers
  import opened Text
  import opened Types
  import App
  import Tasks
  import Habits

  /** What one mood check decides: install a mood (with a message when one is given) or leave the mascot alone. */
  datatype MoodChange = SetMood(mood: MascotMood, message: Option<string>) | KeepMood

  /** What the mascot says when more than three tasks are overdue. */
  function OverdueMessage(overdue: nat): string {
    "You have " + IntString(overdue) + " overdue tasks... just saying."
  }

  const AllHabitsMessage := "ALL habits completed! You absolute LEGEND!"
  const WaitingMessage := "I've been waiting here... no pressure though."
  const AvatarMessage := "Hi there! Let's be productive!"

  /** Hours between two instants given in milliseconds, as an exact quotient. */
  function HoursBetween(since: int, now: int): (h: real)
    ensures h > 2.0 <==> now - since > 2 * 3600000
    ensures h > 0.5 <==> 2 * (now - since) > 3600000
  {
    (now - since) as real / 3600000.0
  }

  /** Whether every habit due today is done: there is at least one, and as many were completed today. */
  predicate AllHabitsDone(todaysHabits: nat, completedToday: nat) {
    todaysHabits > 0 && completedToday == todaysHabits
  }

  /**
   * The decision of `checkMood`, first match wins: more than three overdue
   * tasks make the mascot scheme; else all of today's habits done make it
   * celebrate; else more than two idle hours make it sad; else more than
   * half an idle hour brings a non-neutral mood back to neutral with a
   * stock message. Otherwise the mood is left as it is.
   */
  function CheckMood(overdue: nat, todaysHabits: nat, completedToday: nat, hours: real, mood: MascotMood): (c: MoodChange)
    ensures c == SetMood(Scheming, Some(OverdueMessage(overdue))) <==> overdue > 3
    ensures c == SetMood(Celebrating, Some(AllHabitsMessage)) <==>
      overdue <= 3 && AllHabitsDone(todaysHabits, completedToday)
    ensures c == SetMood(Sad, Some(WaitingMessage)) <==>
      overdue <= 3 && !AllHabitsDone(todaysHabits, completedToday) && hours > 2.0
    ensures c == SetMood(Neutral, None) <==>
      overdue <= 3 && !AllHabitsDone(todaysHabits, completedToday) && 0.5 < hours <= 2.0 && mood != Neutral
    ensures c.KeepMood? <==>
      overdue <= 3 && !AllHabitsDone(todaysHabits, completedToday) && hours <= 2.0 && (hours <= 0.5 || mood == Neutral)
  {
    if overdue > 3 then SetMood(Scheming, Some(OverdueMessage(overdue)))
    else if AllHabitsDone(todaysHabits, completedToday) then SetMood(Celebrating, Some(AllHabitsMessage))
    else if hours > 2.0 then SetMood(Sad, Some(WaitingMessage))
    else if hours > 0.5 && mood != Neutral then SetMood(Neutral, None)
    else KeepMood
  }

  /** Overdue tasks dominate: with more than three, the habits, the idle time and the current mood do not matter. */
  lemma OverdueDominates(overdue: nat, t1: nat, c1: nat, h1: real, m1: MascotMood, t2: nat, c2: nat, h2: real, m2: MascotMood)
    requires overdue > 3
    ensures CheckMood(overdue, t1, c1, h1, m1) == CheckMood(overdue, t2, c2, h2, m2)
  {
  }

  /**
   * The check settles: once it has installed a mood, which also stamps the
   * interaction time, checking again at once (zero idle hours, same counts)
   * either installs the same mood again or leaves the mascot alone.
   */
  lemma CheckMoodSettles(overdue: nat, todaysHabits: nat, completedToday: nat, hours: real, mood: MascotMood)
    requires CheckMood(overdue, todaysHabits, completedToday, hours, mood).SetMood?
    ensures var c := CheckMood(overdue, todaysHabits, completedToday, hours, mood);
      var again := CheckMood(overdue, todaysHabits, completedToday, 0.0, c.mood);
      again == c || again.KeepMood?
  {
  }

  /** The mascot after a check: unchanged when the check keeps the mood, else as `setMascotMood` leaves it. */
  function ApplyMoodChange(mascot: MascotState, c: MoodChange, random: real, now: int): (m: MascotState)
    requires 0.0 <= random < 1.0
    ensures c.KeepMood? ==> m == mascot
    ensures c.SetMood? ==> m.mood == c.mood && m.lastInteraction == now
    ensures c.SetMood? && Truthy(c.message) ==> m.message == c.message.value
    ensures c.SetMood? && !Truthy(c.message) ==> m.message in App.MascotMessages(c.mood)
  {
    match c
    case KeepMood => mascot
    case SetMood(mood, message) => App.MascotAfter(mood, message, random, now)
  }

  /**
   * One run of `checkMood` against the stores: the overdue tasks at `now`,
   * the habits due on `weekday`, the habits completed on `today`, and the
   * hours since the mascot's last interaction decide the change, which is
   * written to the app store through `setMascotMood`.
   */
  method CheckMoodNow(app: App.AppStore, tasks: Tasks.TaskStore, habits: Habits.HabitStore,
                      now: int, today: int, weekday: int, random: real)
    requires 0.0 <= random < 1.0
    modifies app
    ensures app.mascot == ApplyMoodChange(old(app.mascot),
      CheckMood(|tasks.GetOverdueTasks(now)|, |habits.GetTodaysHabits(weekday)|, habits.GetCompletedTodayCount(today),
                HoursBetween(old(app.mascot.lastInteraction), now), old(app.mascot.mood)),
      random, now)
    ensures app.currentView == old(app.currentView) && app.notifications == old(app.notifications)
    ensures app.userName == old(app.userName)
  {
    var overdue := tasks.GetOverdueTasks(now);
    var todays := habits.GetTodaysHabits(weekday);
    var completed := habits.GetCompletedTodayCount(today);
    var hours := HoursBetween(app.mascot.lastInteraction, now);
    var change := CheckMood(|overdue|, |todays|, completed, hours, app.mascot.mood);
    if change.SetMood? {
      app.SetMascotMood(change.mood, change.message, random, now);
    }
  }

  /** Clicking the avatar always makes the mascot happy with its greeting, stamped `now`. */
  method ClickAvatar(app: App.AppStore, random: real, now: int)
    requires 0.0 <= random < 1.0
    modifies app
    ensures app.mascot == MascotState(Happy, AvatarMessage, now)
    ensures app.currentView == old(app.currentView) && app.notifications == old(app.notifications)
    ensures app.userName == old(app.userName)
  {
    app.SetMascotMood(Happy, Some(AvatarMessage), random, now);
  }
}
