/**
 * The notification engine of `src/lib/notifications.ts`: five message
 * pools, the type-to-face template table, the random pick with `{key}`
 * substitution, and the first-match-wins rule chain that turns activity
 * counts into a notification.
 */
module Notifications {
  import opened Wrappers
  import opened Text
  import opened Seqs
  import opened Placeholders
  import opened Types

  const GuiltMessages: seq<string> := [
    "I've been waiting here all day... no pressure though.",
    "{name} misses you. Your tasks miss you more.",
    "Your streak is crying. Literally.",
    "Remember when you said you'd be productive? I remember.",
    "Fine. I'll just sit here. Alone. With your undone tasks.",
    "Your future self just texted. They're disappointed.",
    "I made you a to-do list. You haven't even looked at it.",
    "The tasks aren't going to complete themselves... trust me, I asked.",
    "Day {days} of waiting for you to open the app...",
    "Your goals called. They want to know if you're still together."
  ]

  const PassiveAggressiveMessages: seq<string> := [
    "Oh, you have time for {app} but not for your goals? Cool cool cool.",
    "No worries! Your dreams can wait. They've been waiting for years anyway.",
    "I see you're busy. I'll just tell your tasks you said hi.",
    "Must be nice having zero responsibilities.",
    "That's okay, other users completed 3 tasks already today.",
    "I'm not mad. I'm just... disappointed.",
    "Sure, ignore me. Everyone else does too.",
    "Your task has been pending for {hours} hours. It's developing abandonment issues.",
    "Oh you're back? I wasn't crying, you were crying.",
    "Remember me? Your productivity app? No? That's fine."
  ]

  /** The message the streak-at-risk rule uses verbatim; it is also the seventh urgent template. */
  const StreakAtRiskMessage: string := "Your streak is about to DIE. Do something!"

  const UrgentMessages: seq<string> := [
    "Your task window closes in {minutes} minutes. Just saying.",
    "I'm STRESSED about your calendar right now.",
    "Everyone else already finished this. Literally everyone.",
    "This deadline is approaching faster than your motivation.",
    "URGENT: Your procrastination has reached critical levels.",
    "Red alert! Task overdue! This is not a drill!",
    StreakAtRiskMessage,
    "The clock is ticking... tick tock... TICK TOCK.",
    "{count} people in your network just completed their goals...",
    "Last chance before I start sending sad owl pictures."
  ]

  /** The seventh template carries three copies of a mis-decoded party-popper emoji, kept as the source has it. */
  const CelebrationMessages: seq<string> := [
    "YESSS! You actually did it! I'm literally crying!",
    "WHO IS THIS PRODUCTIVITY LEGEND?!",
    "Your streak is now longer than my attention span!",
    "I just told all the other mascots about you. You're famous now.",
    "Achievement unlocked: Actually Did The Thing!",
    "You're on FIRE! (Not literally, please don't panic)",
    "This calls for a celebration! \U{00F0}\U{0178}\U{017D}\U{2030}\U{00F0}\U{0178}\U{017D}\U{2030}\U{00F0}\U{0178}\U{017D}\U{2030}",
    "I knew you had it in you! (I had doubts, but still!)",
    "Productivity level: OVER 9000!",
    "You just made my whole day. My whole WEEK even!"
  ]

  const FomoMessages: seq<string> := [
    "Your friend {friend} just completed their workout. Race them?",
    "{count} people in your network are being productive right now.",
    "{friend} just hit a 30-day streak. Where's yours?",
    "Everyone's crushing their goals today. Join them?",
    "The productivity train is leaving. Are you on board?",
    "Your competitor just finished {task}. Just saying...",
    "{friend} shared their progress. Show them what you've got!",
    "Trending now: Being productive. You should try it."
  ]

  datatype Template = Template(kind: NotificationType, messages: seq<string>, mascotExpression: MascotMood)

  /** `notificationTemplates[kind]`: every type has its own non-empty pool. */
  function NotificationTemplate(kind: NotificationType): (t: Template)
    ensures t.kind == kind && |t.messages| > 0
  {
    match kind
    case Guilt => Template(Guilt, GuiltMessages, Sad)
    case PassiveAggressive => Template(PassiveAggressive, PassiveAggressiveMessages, Disappointed)
    case Urgent => Template(Urgent, UrgentMessages, Scheming)
    case Celebration => Template(Celebration, CelebrationMessages, Celebrating)
    case Fomo => Template(Fomo, FomoMessages, Scheming)
  }

  /** `getRandomMessage(kind, replacements)`: some template of that type with the placeholders filled in. */
  function RandomMessage(kind: NotificationType, random: real, replacements: seq<(string, string)>): (m: string)
    requires 0.0 <= random < 1.0
    ensures exists t :: t in NotificationTemplate(kind).messages && m == Fill(t, replacements)
  {
    var t := Pick(NotificationTemplate(kind).messages, random);
    Fill(t, replacements)
  }

  /** What the caller knows about the user at the moment of the check. */
  datatype Context = Context(
    overdueTaskCount: int,
    pendingTaskCount: int,
    currentStreak: int,
    hoursSinceLastActivity: real,
    completedToday: int)

  datatype Rule = CelebrateRule | OverdueRule | LongAbsenceRule | MediumAbsenceRule | StreakAtRiskRule | NoRule

  /** The rule that fires: the first of the five whose condition holds, stated here rule by rule as an exact condition. */
  function SelectRule(ctx: Context): (r: Rule)
    ensures r == CelebrateRule <==> ctx.completedToday >= 5
    ensures r == OverdueRule <==> ctx.completedToday < 5 && ctx.overdueTaskCount > 0
    ensures r == LongAbsenceRule <==>
      ctx.completedToday < 5 && ctx.overdueTaskCount <= 0 && ctx.hoursSinceLastActivity > 24.0
    ensures r == MediumAbsenceRule <==>
      ctx.completedToday < 5 && ctx.overdueTaskCount <= 0 && 4.0 < ctx.hoursSinceLastActivity <= 24.0
      && ctx.pendingTaskCount > 0
    ensures r == StreakAtRiskRule <==>
      ctx.completedToday < 5 && ctx.overdueTaskCount <= 0 && 20.0 < ctx.hoursSinceLastActivity <= 24.0
      && ctx.pendingTaskCount <= 0 && ctx.currentStreak > 0
    ensures r == NoRule <==>
      ctx.completedToday < 5 && ctx.overdueTaskCount <= 0 && ctx.hoursSinceLastActivity <= 24.0
      && !(ctx.hoursSinceLastActivity > 4.0 && ctx.pendingTaskCount > 0)
      && !(ctx.currentStreak > 0 && ctx.hoursSinceLastActivity > 20.0)
  {
    if ctx.completedToday >= 5 then CelebrateRule
    else if ctx.overdueTaskCount > 0 then OverdueRule
    else if ctx.hoursSinceLastActivity > 24.0 then LongAbsenceRule
    else if ctx.hoursSinceLastActivity > 4.0 && ctx.pendingTaskCount > 0 then MediumAbsenceRule
    else if ctx.currentStreak > 0 && ctx.hoursSinceLastActivity > 20.0 then StreakAtRiskRule
    else NoRule
  }

  datatype Generated = Generated(kind: NotificationType, message: string, mascotExpression: MascotMood)

  /** `Math.floor(hours / 24)` for an absence longer than a day: at least one. */
  function AbsenceDays(hours: real): (d: nat)
    requires hours > 24.0
    ensures d >= 1 && (d as real) * 24.0 <= hours < (d as real + 1.0) * 24.0
  {
    var x := hours / 24.0;
    assert x > 1.0;
    x.Floor
  }

  /** `Math.floor(hours)` for a positive number of hours. */
  function WholeHours(hours: real): (h: nat)
    requires hours > 0.0
    ensures h as real <= hours < h as real + 1.0
  {
    hours.Floor
  }

  /**
   * `generateContextualNotification(ctx)`: nothing exactly when no rule
   * fires; otherwise a notification whose face always agrees with the
   * template table and whose message comes from that type's pool,
   * with the count, day or hour figure substituted.
   */
  function GenerateContextualNotification(ctx: Context, random: real): (r: Option<Generated>)
    requires 0.0 <= random < 1.0
    ensures r.None? <==> SelectRule(ctx) == NoRule
    ensures r.Some? ==> r.value.mascotExpression == NotificationTemplate(r.value.kind).mascotExpression
    ensures SelectRule(ctx) == CelebrateRule ==>
      r.value.kind == Celebration && r.value.message in CelebrationMessages
    ensures SelectRule(ctx) == OverdueRule ==>
      r.value.kind == Urgent
      && (exists t :: t in UrgentMessages && r.value.message == Fill(t, [("count", DecimalString(ctx.overdueTaskCount))]))
    ensures SelectRule(ctx) == LongAbsenceRule ==>
      r.value.kind == Guilt
      && (exists t :: t in GuiltMessages
            && r.value.message == Fill(t, [("days", DecimalString(AbsenceDays(ctx.hoursSinceLastActivity)))]))
    ensures SelectRule(ctx) == MediumAbsenceRule ==>
      r.value.kind == PassiveAggressive
      && (exists t :: t in PassiveAggressiveMessages
            && r.value.message == Fill(t, [("hours", DecimalString(WholeHours(ctx.hoursSinceLastActivity)))]))
    ensures SelectRule(ctx) == StreakAtRiskRule ==>
      r == Some(Generated(Urgent, StreakAtRiskMessage, Scheming)) && StreakAtRiskMessage in UrgentMessages
  {
    match SelectRule(ctx)
    case CelebrateRule =>
      var m := RandomMessage(Celebration, random, []);
      assert forall t :: Fill(t, []) == t;
      Some(Generated(Celebration, m, Celebrating))
    case OverdueRule =>
      Some(Generated(Urgent, RandomMessage(Urgent, random, [("count", DecimalString(ctx.overdueTaskCount))]), Scheming))
    case LongAbsenceRule =>
      var days := AbsenceDays(ctx.hoursSinceLastActivity);
      Some(Generated(Guilt, RandomMessage(Guilt, random, [("days", DecimalString(days))]), Sad))
    case MediumAbsenceRule =>
      var hours := WholeHours(ctx.hoursSinceLastActivity);
      Some(Generated(PassiveAggressive, RandomMessage(PassiveAggressive, random, [("hours", DecimalString(hours))]), Disappointed))
    case StreakAtRiskRule =>
      assert UrgentMessages[6] == StreakAtRiskMessage;
      Some(Generated(Urgent, StreakAtRiskMessage, Scheming))
    case NoRule => None
  }

  /** The streak-at-risk rule is reachable: with nothing pending, a live streak and 20 to 24 hours of absence it fires. */
  lemma StreakAtRiskReachable()
    ensures exists ctx :: SelectRule(ctx) == StreakAtRiskRule
  {
    var ctx := Context(0, 0, 3, 22.0, 0);
    assert SelectRule(ctx) == StreakAtRiskRule;
  }

  /** With five completions the celebration wins whatever else is going on. */
  lemma CelebrationWins(ctx: Context, random: real)
    requires 0.0 <= random < 1.0 && ctx.completedToday >= 5
    ensures GenerateContextualNotification(ctx, random).Some?
    ensures GenerateContextualNotification(ctx, random).value.kind == Celebration
    ensures GenerateContextualNotification(ctx, random).value.mascotExpression == Celebrating
  {
  }
}
