# ProdOwl core, modelled in Dafny

ProdOwl is a single-page productivity app: tasks, habits with streaks, a
focus timer, notes, social and web3 to-dos, and an owl mascot that nags
or praises the user through notifications. This project models its
behavioural core. It covers the following parts:

- the habit streak engine (`calculateStreak` and the habit store);
- the `prodowl://` deep-link codec, its web variant, the external
  app-link builders and the incoming-link dispatcher;
- notification templates, first-occurrence `{key}` substitution and the
  contextual-notification rule chain;
- the task, timer, note, app, social and web3 stores, each a class whose
  methods update its fields;
- the social and web3 helper libraries: task constructors, per-platform
  metrics, the chain table and address formatting;
- the timer view's `formatTime`, the remaining-time clamp and the
  auto-stop effect;
- the mascot's periodic mood check and its avatar click.

Each source file has its own module: `Habits`, `DeepLinks`,
`ExternalLinks`, `Notifications`, `Tasks`, `Timers`, `Notes`, `App`,
`Social`, `SocialTasks`, `Web3`, `Web3Tasks`, `TimerView` and `Mascot`.
Four shared modules support them:

- `Types` holds the records of `src/types`.
- `Seqs` models `filter`, `find`, `findIndex` and `map`.
- `Text` models the JavaScript string operations the code relies on:
  `split`, `replace`, `padStart`, `parseInt`, UTF-16 `slice`, and
  `toLowerCase` for the capitals with a one-to-one, context-free lower
  case (ASCII, Latin-1, Greek except sigma, basic Cyrillic).
- `UriComponent` models `encodeURIComponent` and `decodeURIComponent`:
  UTF-8, upper-case hex, and the decoding algorithm of the ECMAScript
  standard.

The model's inputs stand in for the environment:

- The clock is a parameter:
  - `now` is milliseconds since the epoch;
  - `today` is a day number;
  - `dayStart` and `dayEnd` bound local "today";
  - `weekday` is what `getDay()` returns.
- Every `Math.random()` pick is a parameter `random` in [0, 1). The
  chosen index is `floor(random * length)`.
- Generated ids are parameters.
- The wallet library's transaction result is a function parameter.

### Two behaviours of the code worth knowing

- **Duplicate completion dates.** The sorted walk in `calculateStreak`
  stops at the first difference that is not exactly one day, and that
  includes a difference of zero. So a duplicated latest date gives a
  streak of 1, whatever lies behind it (`Habits.StreakDuplicateLatest`).
- **The "streak at risk" rule can fire.** The fifth rule of
  `generateContextualNotification` applies when all of the following
  hold: no task is pending, the streak is positive, the user has been
  away between 20 and 24 hours, nothing is overdue, and fewer than five
  tasks were completed today (`Notifications.StreakAtRiskReachable`).

## Model

| member | source | states |
|---|---|---|
| Habits.SortDesc | src/store/habitStore.ts:26 | The dates newest first: sorted descending and a permutation of the input. |
| Habits.InsertDesc | src/store/habitStore.ts:26 | Inserting into a descending list keeps it descending and adds exactly that element. |
| Habits.SortedUnique | src/store/habitStore.ts:26 | Two descending sequences with the same elements are equal, so the sort order is unique. |
| Habits.Run | src/store/habitStore.ts:37-48 | The length of the run of consecutive days at the head of the list is between 1 and the list length. |
| Habits.Streak | src/store/habitStore.ts:23-51 | The streak never exceeds the number of completion dates. |
| Habits.CalculateStreak | src/store/habitStore.ts:23-51 | The sort, the today-or-yesterday guard and the counting loop with its `break` compute exactly `Streak`. |
| Habits.StreakActive | src/store/habitStore.ts:31-35 | The streak is at least 1 if and only if the latest date is today or yesterday. |
| Habits.StreakFutureDate | src/store/habitStore.ts:26-35 | A completion date after today makes the streak 0. |
| Habits.StreakIgnoresOrder | src/store/habitStore.ts:26 | The streak depends only on the multiset of dates, not on their order. |
| Habits.StreakCountsConsecutiveDays | src/store/habitStore.ts:37-50 | Without duplicates and with an active latest date, the streak is the number of consecutive days ending at the latest date: every day in that range is completed and the day before it is not. |
| Habits.StreakDuplicateLatest | src/store/habitStore.ts:38-47 | A latest date that appears twice stops the walk at once, so the streak is 1. |
| Habits.RemoveDate | src/store/habitStore.ts:91 | Filtering a date out removes every copy of it and nothing else, and keeps the list duplicate-free. |
| Habits.ToggleDates | src/store/habitStore.ts:89-92 | After a toggle, the date is present if and only if it was absent before; other dates are unaffected. |
| Habits.ToggleKeepsNoDuplicates | src/store/habitStore.ts:89-92 | Toggling keeps a duplicate-free date list duplicate-free. |
| Habits.ToggleTwice | src/store/habitStore.ts:89-94 | Toggling the same date twice restores the date multiset and therefore the streak. |
| Habits.Toggled | src/store/habitStore.ts:86-101 | After a toggle, the streak is recomputed from the new dates, the longest streak is the maximum of the old longest and the new streak, and no other field changes. |
| Habits.NewHabit | src/store/habitStore.ts:58-66 | A new habit has the given id and time, streak 0, longest streak 0, no completion dates, and the draft's fields. |
| Habits.MergeHabit | src/store/habitStore.ts:73 | `{...habit, ...updates}`: each of the eleven fields is the update's value when present and the habit's otherwise. |
| Habits.MergeHabitLaws | src/store/habitStore.ts:70-76 | An empty update is the identity, and applying the same update twice equals applying it once. |
| Habits.HabitStore.constructor | src/store/habitStore.ts:56 | The store starts with no habits. |
| Habits.HabitStore.AddHabit | src/store/habitStore.ts:58-68 | Appends exactly the new habit. |
| Habits.HabitStore.UpdateHabit | src/store/habitStore.ts:70-76 | Merges the update into every habit with the id; the others stay in place. |
| Habits.HabitStore.DeleteHabit | src/store/habitStore.ts:78-82 | Removes every habit with the id; every other habit is kept as many times as it occurred, in order. |
| Habits.HabitStore.ToggleHabitCompletion | src/store/habitStore.ts:84-104 | Toggles the date (today by default) on every habit with the id and leaves the others unchanged. |
| Habits.HabitStore.GetHabitStreak | src/store/habitStore.ts:106-109 | The stored streak of the first habit with the id, or 0 when there is none. |
| Habits.HabitStore.GetTodaysHabits | src/store/habitStore.ts:111-120 | Exactly the habits scheduled on the weekday, each as many times as it occurs, in order; every daily or weekly habit is included. |
| Habits.HabitStore.GetCompletedTodayCount | src/store/habitStore.ts:122-127 | At most the number of habits; 0 exactly when none is completed today, and equal to the number of habits exactly when all are. |
| DeepLinks.ParseSegments | src/lib/deepLinks.ts:42-70 | The `switch` over `action/id/rest`: null exactly for an unknown head or an undecodable external URL; `task` gives complete-task iff the third segment is `complete`, else open-task, with the second segment as id; `habit`, `note` give check-habit and open-note with that id; `timer` gives start-timer with the second segment or `25`; `external` gives the decoded URL. |
| DeepLinks.StripScheme | src/lib/deepLinks.ts:25-27 | `replace(APP_SCHEME, '')` on a link that starts with the scheme removes exactly that prefix. |
| DeepLinks.ParseDeepLinkAsWritten | src/lib/deepLinks.ts:22-40 | `parseDeepLink` as written, including the web branch's `split('/app/')[1]`; a URL with neither the scheme nor `/app/` gives null. |
| DeepLinks.ParseDeepLink | src/lib/deepLinks.ts:22-40 | The corrected parser: a scheme link parses its path, a web link parses all the text after the first `/app/`, and anything else gives null. |
| DeepLinks.AsWrittenAgrees | src/lib/deepLinks.ts:31-33 | The two parsers agree whenever the text after the first `/app/` contains no second `/app/`. |
| DeepLinks.DurationText | src/lib/deepLinks.ts:82 | The timer duration is never empty; it defaults to `25`. |
| DeepLinks.GenerateDeepLink | src/lib/deepLinks.ts:73-90 | The scheme followed by the action's path. |
| DeepLinks.GenerateWebDeepLink | src/lib/deepLinks.ts:93-96 | The base URL, then `/app/`, then the same path as the scheme link. |
| DeepLinks.PathRoundTrip | src/lib/deepLinks.ts:42-90 | Parsing the generated path of any canonical link gives back that link. |
| DeepLinks.ExternalPathRoundTrip | src/lib/deepLinks.ts:64-65 | External links round-trip for every URL, because the URL is percent-encoded. |
| DeepLinks.RoundTrip | src/lib/deepLinks.ts:22-90 | `parseDeepLink(generateDeepLink(l)) == l` for every canonical link, with both parsers. |
| DeepLinks.WebLinkNotScheme | src/lib/deepLinks.ts:93-96 | A web link whose base does not start with the scheme is not mistaken for a scheme link. |
| DeepLinks.WebMarkerAfterBase | src/lib/deepLinks.ts:31-33 | In a web link, the first `/app/` is the one that was inserted after the base. |
| DeepLinks.WebRoundTrip | src/lib/deepLinks.ts:93-96 | The corrected parser reads every generated web link back to its link, the same result as for the scheme link. |
| DeepLinks.WebRoundTripAsWritten | src/lib/deepLinks.ts:31-33 | The parser as written round-trips web links whose path has no second `/app/`. |
| DeepLinks.WebLinkFinding | src/lib/deepLinks.ts:32 | The web link for completing the task with id `app` is read back by the parser as written as "open task, no id"; the corrected parser returns the original link. |
| DeepLinks.AsWrittenSecondMarker | src/lib/deepLinks.ts:32 | Text after a second `/app/` is dropped by the parser as written. |
| DeepLinks.ParseTaskAlone | src/lib/deepLinks.ts:46-50 | A bare `task` path opens a task with no id. |
| DeepLinks.HabitLinksCollide | src/lib/deepLinks.ts:52-56 | `habit/<id>` and `habit/<id>/check` both parse to check-habit. |
| DeepLinks.TimerDefaults | src/lib/deepLinks.ts:58-59 | `timer` and `timer/` both carry the default duration of 25. |
| DeepLinks.TimerGenerateDefault | src/lib/deepLinks.ts:81-82 | A timer link without parameters is generated as `prodowl://timer/25`. |
| DeepLinks.CallFor | src/lib/deepLinks.ts:185-203 | The handler a parsed link invokes is the one for its action. |
| DeepLinks.HandleIncomingDeepLink | src/lib/deepLinks.ts:171-207 | Parses with `parseDeepLink` as written. Returns false exactly when parsing yields null. Otherwise returns true and makes the descriptor's call on the matching handler only, and only if that handler is present. |
| DeepLinks.HandleIncomingDeepLinkCorrected | src/lib/deepLinks.ts:171-207 | The same dispatch over the corrected parser. |
| DeepLinks.WebLinkDispatchFinding | src/lib/deepLinks.ts:32 | On the web link for completing task `app`, the handler as written calls `onOpenTask(undefined)`; the corrected one calls `onCompleteTask('app')`. |
| DeepLinks.TimerLinkStartsTimer | src/lib/deepLinks.ts:195-197 | A generated timer link for `m` minutes calls the start-timer handler with `parseInt` of the duration, which is `m`. |
| DeepLinks.ExternalLinkOpensUrl | src/lib/deepLinks.ts:201-203 | A generated external link calls the external handler with the original URL. |
| UriComponent.Encode | src/lib/deepLinks.ts:65 | `encodeURIComponent`: unreserved characters stay; every other character becomes upper-case `%XX` escapes of its UTF-8 bytes. |
| UriComponent.DecodeEncode | src/lib/deepLinks.ts:65 | `decodeURIComponent(encodeURIComponent(s)) == s` for every string, and decoding never throws on encoder output. |
| UriComponent.EncodeAvoids | src/lib/deepLinks.ts:85-86 | Encoded text contains no reserved character such as `/` or `&`, so it survives `split('/')` and query splitting. |
| ExternalLinks.EncodedAfter | src/lib/deepLinks.ts:102-104 | A prefix followed by encoded text: the text after the prefix decodes to the input and holds no `&` or `/`. |
| ExternalLinks.TwitterCompose | src/lib/deepLinks.ts:102 | `twitter://post?text=` followed by text that decodes back to the tweet. |
| ExternalLinks.TwitterProfile | src/lib/deepLinks.ts:103 | `twitter://user?screen_name=` followed by the raw user name. |
| ExternalLinks.TwitterWebCompose | src/lib/deepLinks.ts:104 | The web intent URL followed by text that decodes back to the tweet. |
| ExternalLinks.DiscordChannel | src/lib/deepLinks.ts:109 | `discord://channels/` with server and channel as two path segments. |
| ExternalLinks.DiscordServer | src/lib/deepLinks.ts:110 | `discord://channels/` followed by the server id. |
| ExternalLinks.DiscordWebChannel | src/lib/deepLinks.ts:111-112 | The web channel URL with server and channel as two path segments. |
| ExternalLinks.PathAfter | src/lib/deepLinks.ts:117-121 | A prefix followed by slash-joined parts that split back into those parts when none contains `/`. |
| ExternalLinks.GitHubRepo | src/lib/deepLinks.ts:117 | `github://repo/<owner>/<repo>`; the two segments split back out. |
| ExternalLinks.GitHubIssue | src/lib/deepLinks.ts:118-119 | `https://github.com/<owner>/<repo>/issues/<n>`; the segments split back out. |
| ExternalLinks.GitHubPr | src/lib/deepLinks.ts:120-121 | `https://github.com/<owner>/<repo>/pull/<n>`; the segments split back out. |
| ExternalLinks.MetaMaskSend | src/lib/deepLinks.ts:127-128 | The send URL whose query carries the address and the amount as its two fields. |
| ExternalLinks.MetaMaskWalletConnect | src/lib/deepLinks.ts:130 | `metamask://wc?uri=` followed by text that decodes back to the URI. |
| ExternalLinks.ShareQuery | src/lib/deepLinks.ts:135-136 | A share query: the encoded URL is the first field; the optional second field appears only when a non-empty value is given. |
| ExternalLinks.LinkedInShare | src/lib/deepLinks.ts:135-136 | The LinkedIn share URL: the first field decodes to the URL, and a title adds a second field. |
| ExternalLinks.LinkedInProfile | src/lib/deepLinks.ts:137 | `linkedin://profile/` followed by the profile id. |
| ExternalLinks.TelegramChat | src/lib/deepLinks.ts:142 | `tg://resolve?domain=` followed by the user name. |
| ExternalLinks.TelegramShare | src/lib/deepLinks.ts:143-144 | The Telegram share URL: the first field decodes to the URL, and a text adds a second field. |
| Placeholders.Placeholder | src/lib/notifications.ts:115 | The placeholder for a key is the key in braces. |
| Placeholders.FillPlaceholders | src/lib/notifications.ts:110-117 | The loop over the replacements computes `Fill`: for each key in turn, the first `{key}` is replaced. |
| Placeholders.FillWithoutPlaceholders | src/lib/notifications.ts:110-117 | A message containing none of the placeholders is returned unchanged. |
| Placeholders.FillFirstOnly | src/lib/notifications.ts:115 | Only the first `{key}` is replaced; later occurrences stay verbatim. |
| Text.ReplaceFirst | src/lib/notifications.ts:115 | `String.replace` with a string pattern: without an occurrence, the string is unchanged. |
| Text.ReplaceFirstAt | src/lib/notifications.ts:115 | Replacing the first occurrence keeps the text before it and everything after it. |
| Text.SplitJoin | src/lib/deepLinks.ts:43 | Splitting a join of separator-free parts gives the parts back. |
| Text.ParseIntDecimal | src/lib/deepLinks.ts:196 | `parseInt` reads back what `toString` printed. |
| Text.SliceUnits | src/lib/social.ts:132 | `slice(0, n)`: the longest prefix of at most `n` UTF-16 code units. |
| Text.SliceUnitsBmp | src/lib/social.ts:132 | Without astral characters, `slice(0, n)` keeps the first `n` characters. |
| Text.PadStart | src/components/features/Timer.tsx:11 | `padStart`: the result is at least the width long, ends with the input, and is filled on the left. |
| Text.DecimalString | src/components/features/Timer.tsx:11 | `toString` of a natural number: decimal digits denoting the number, with no leading zero. |
| Notifications.NotificationTemplate | src/lib/notifications.ts:79-105 | Each type has a template of that type with a non-empty message pool. |
| Notifications.RandomMessage | src/lib/notifications.ts:108-120 | Some template of the requested type, with its placeholders filled first-occurrence only. |
| Notifications.SelectRule | src/lib/notifications.ts:132-177 | The rule chain, stated as five if-and-only-if conditions: celebrate at 5 or more completed; else urgent when overdue; else guilt after more than 24 hours; else passive-aggressive after more than 4 hours with pending tasks; else streak-at-risk with a positive streak after more than 20 hours; else none. |
| Notifications.AbsenceDays | src/lib/notifications.ts:154 | `Math.floor(hours / 24)`: the whole days absent, at least 1. |
| Notifications.WholeHours | src/lib/notifications.ts:163 | `Math.floor(hours)`. |
| Notifications.GenerateContextualNotification | src/lib/notifications.ts:123-178 | Null exactly when no rule applies. Otherwise the rule's type, the matching mascot expression, and a message from that type's pool with the count, days or hours substituted; the streak rule uses its fixed message. |
| Notifications.StreakAtRiskReachable | src/lib/notifications.ts:168-175 | Some context selects the streak-at-risk rule. |
| Notifications.CelebrationWins | src/lib/notifications.ts:133-139 | Five or more completed tasks always give a celebration with the celebrating expression, whatever the other fields. |
| Tasks.NewTask | src/store/taskStore.ts:28-35 | A new task is pending, has the given id and time, the tags given or `[]`, and the draft's fields. |
| Tasks.MergeTask | src/store/taskStore.ts:42 | `{...task, ...updates}`: each of the twelve fields is the update's value when present and the task's otherwise. |
| Tasks.MergeTaskLaws | src/store/taskStore.ts:39-45 | An empty update is the identity, and merging is idempotent. |
| Tasks.MarkCompleted | src/store/taskStore.ts:57 | Status completed, `completedAt` stamped, and nothing else changed. |
| Tasks.CompletedLaws | src/store/taskStore.ts:53-79 | A completed task is never overdue at any later time, and completing it again only moves the `completedAt` stamp. |
| Tasks.StatusesPartition | src/store/taskStore.ts:63-65 | The four status filters partition any task list. |
| Tasks.CategoriesPartition | src/store/taskStore.ts:67-69 | The five category filters partition any task list. |
| Tasks.TaskStore.constructor | src/store/taskStore.ts:26 | The store starts empty. |
| Tasks.TaskStore.AddTask | src/store/taskStore.ts:28-37 | Appends exactly the new task; existing tasks are unchanged. |
| Tasks.TaskStore.UpdateTask | src/store/taskStore.ts:39-45 | Merges the update into the tasks with the id only. |
| Tasks.TaskStore.DeleteTask | src/store/taskStore.ts:47-51 | Removes every task with the id, keeps each other task as many times as it occurred and in order, and the id appears in no selector's output afterwards. |
| Tasks.TaskStore.CompleteTask | src/store/taskStore.ts:53-61 | Completes the tasks with the id, leaves everything else as it was, and no task with the id is overdue afterwards. |
| Tasks.TaskStore.GetTasksByStatus | src/store/taskStore.ts:63-65 | Exactly the tasks with that status, each as many times as it occurs, as an order-preserving subsequence. |
| Tasks.TaskStore.GetTasksByCategory | src/store/taskStore.ts:67-69 | Exactly the tasks in that category, each as many times as it occurs, as an order-preserving subsequence. |
| Tasks.TaskStore.GetOverdueTasks | src/store/taskStore.ts:71-79 | Exactly the tasks due before now and not completed, each as many times as it occurs, in order; each has a due date. |
| Tasks.TaskStore.GetTodaysTasks | src/store/taskStore.ts:81-92 | Exactly the tasks due in [start of today, start of tomorrow), each as many times as it occurs, in order. |
| Tasks.StatusCountsAddUp | src/store/taskStore.ts:63-65 | The four status lists add up to all tasks. |
| Tasks.CategoryCountsAddUp | src/store/taskStore.ts:67-69 | The five category lists add up to all tasks. |
| Timers.SumDurationsAppend | src/store/timerStore.ts:106-109 | The duration sum is additive over concatenation. |
| Timers.SumDurationsFilter | src/store/timerStore.ts:111-116 | With non-negative durations, the sum over any filter lies between 0 and the full sum. |
| Timers.CategorySumsAddUp | src/store/timerStore.ts:111-116 | The five per-category sums add up to the total. |
| Timers.Closed | src/store/timerStore.ts:61-65 | The closed entry has `endTime` now and duration equal to the elapsed seconds; its other fields are unchanged. |
| Timers.TimerStore.constructor | src/store/timerStore.ts:28-32 | Idle, no entry, elapsed 0, target 25 minutes, no entries. |
| Timers.TimerStore.StartTimer | src/store/timerStore.ts:34-48 | Running, elapsed 0, a fresh entry of duration 0; `entries` and the target are untouched. |
| Timers.TimerStore.PauseTimer | src/store/timerStore.ts:50-52 | Only the status changes, to paused, whatever it was. |
| Timers.TimerStore.ResumeTimer | src/store/timerStore.ts:54-56 | Only the status changes, to running, whatever it was. |
| Timers.TimerStore.StopTimer | src/store/timerStore.ts:58-73 | With a current entry: appends it closed with the elapsed seconds, then goes idle with no entry and elapsed 0, and today's total grows by the elapsed time. Without one: nothing changes. |
| Timers.TimerStore.ResetTimer | src/store/timerStore.ts:75-81 | Idle, no entry, elapsed 0; `entries` is never touched. |
| Timers.TimerStore.Tick | src/store/timerStore.ts:83-90 | Elapsed grows by one only when running; otherwise nothing changes. |
| Timers.TimerStore.SetTargetMinutes | src/store/timerStore.ts:92-94 | Only the target changes. |
| Timers.TimerStore.GetTodaysEntries | src/store/timerStore.ts:96-104 | Exactly the entries started today, each as many times as it occurs, in order. |
| Timers.CategoryTimeBounded | src/store/timerStore.ts:106-116 | Each category's time today lies between 0 and the total time today. |
| Timers.CategoryTimesAddUp | src/store/timerStore.ts:106-116 | The five categories' times today add up to the total time today. |
| Notes.NewNote | src/store/noteStore.ts:27-34 | A new note has the given id, `createdAt == updatedAt == now`, and the draft's fields. |
| Notes.MergeNote | src/store/noteStore.ts:38-46 | Each field is the update's value when present and the note's otherwise, except `updatedAt`, which is always `now`. |
| Notes.MergeNoteLaws | src/store/noteStore.ts:38-46 | An empty update only refreshes `updatedAt`, and merging is idempotent. |
| Notes.TogglePinned | src/store/noteStore.ts:57 | The pin flips and nothing else changes. |
| Notes.TogglePinnedTwice | src/store/noteStore.ts:54-60 | Flipping twice restores the note. |
| Notes.TogglePinIn | src/store/noteStore.ts:54-60 | Flips the pin of the notes with the id and keeps the others in place. |
| Notes.TogglePinInTwice | src/store/noteStore.ts:54-60 | Toggling the same id twice restores the original list. |
| Notes.NoteStore.constructor | src/store/noteStore.ts:25 | The store starts empty. |
| Notes.NoteStore.AddNote | src/store/noteStore.ts:27-36 | Appends exactly the new note. |
| Notes.NoteStore.UpdateNote | src/store/noteStore.ts:38-46 | Merges the update into the matching notes only. |
| Notes.NoteStore.DeleteNote | src/store/noteStore.ts:48-52 | Removes every note with the id; every other note is kept as many times as it occurred, in order. |
| Notes.NoteStore.TogglePin | src/store/noteStore.ts:54-60 | The notes become `TogglePinIn` of the old notes. |
| Notes.NoteStore.GetPinnedNotes | src/store/noteStore.ts:62-64 | Exactly the pinned notes, each as many times as it occurs, in order. |
| Notes.NoteStore.SearchNotes | src/store/noteStore.ts:66-74 | Exactly the notes, each as many times as it occurs and in order, whose title, content or one of whose tags contains the query once both are lower-cased by `Text.ToLower`. |
| Notes.NoteStore.GetNotesByTag | src/store/noteStore.ts:76-78 | Exactly the notes whose tags contain the exact tag, each as many times as it occurs, in order. |
| Notes.SearchEmptyFindsAll | src/store/noteStore.ts:66-74 | The empty query returns all notes. |
| Notes.SearchIgnoresCase | src/store/noteStore.ts:66-74 | Searching for a query or its lower-case form (under `Text.ToLower`) gives the same result. |
| App.MascotMessages | src/store/appStore.ts:29-66 | Every mood has three stock messages. |
| App.GetMascotMessage | src/store/appStore.ts:29-70 | One of that mood's stock messages. |
| App.MascotAfter | src/store/appStore.ts:85-93 | The mood is set and `lastInteraction` stamped; the message is the given one when non-empty, else one of the mood's stock messages. |
| App.NewNotification | src/store/appStore.ts:98-103 | The draft's fields, with the given id and time, unread. |
| App.PushCapped | src/store/appStore.ts:105 | The new notification first, then the previous list truncated so that the total is at most 50. |
| App.UnreadCount | src/store/appStore.ts:121-123 | At most the list length; 0 exactly when every notification is read. |
| App.MarkRead | src/store/appStore.ts:109-115 | Sets read on the notifications with the id only. |
| App.MarkReadLowersUnread | src/store/appStore.ts:109-115 | Marking read never raises the unread count, and the matching notifications end up read. |
| App.MarkReadIdempotent | src/store/appStore.ts:109-115 | Marking the same id twice equals marking it once. |
| App.PushCappedUnread | src/store/appStore.ts:97-107 | Adding an unread notification raises the unread count by at most one, and leaves it at least 1. |
| App.AppStore.constructor | src/store/appStore.ts:74-127 | Tasks view, neutral mascot with its greeting, no notifications, empty user name. |
| App.AppStore.SetView | src/store/appStore.ts:77 | Only the view changes. |
| App.AppStore.SetMascotMood | src/store/appStore.ts:85-93 | The mascot becomes `MascotAfter`; nothing else changes. |
| App.AppStore.AddNotification | src/store/appStore.ts:97-107 | The list becomes `PushCapped` of the new notification, holds at most 50, and the unread count rises by at most one. |
| App.AppStore.MarkNotificationRead | src/store/appStore.ts:109-115 | The list becomes `MarkRead`, and the unread count does not rise. |
| App.AppStore.ClearNotifications | src/store/appStore.ts:117-119 | An empty list, so the unread count is 0. |
| App.AppStore.GetUnreadCount | src/store/appStore.ts:121-123 | At most the number of notifications. |
| App.AppStore.SetUserName | src/store/appStore.ts:127 | Only the user name changes. |
| Social.PlatformsComplete | src/lib/social.ts:62-98 | The platform list names every platform. |
| Social.SocialMessages | src/lib/social.ts:62-98 | Every platform has five messages. |
| Social.GetSocialTaskMessage | src/lib/social.ts:101-112 | A message from the platform's pool, with first-occurrence substitution done by the `forEach` loop; with no replacements, the pool message itself. |
| Social.MetricsFor | src/lib/social.ts:249-259 | Streak 0; completed count at most the platform's tasks; last activity null exactly when nothing is completed, else now. |
| Social.CalculateSocialMetrics | src/lib/social.ts:244-262 | Every platform is a key, and each value is that platform's `MetricsFor`. |
| Social.CompletedCountsAddUp | src/lib/social.ts:244-262 | The per-platform completed counts add up to the number of completed tasks. |
| Social.ExecuteSocialTask | src/lib/social.ts:115-123 | The launch decision: deep link with fallback, deep link alone, fallback or target in a new tab, or nothing; each case holds exactly when the code takes it. |
| Social.IdOr | src/lib/social.ts:128 | `id \|\| platform-<now>`. |
| Social.TwitterDescription | src/lib/social.ts:132 | `Share your thoughts` for empty content, else `Share: "` + the longest prefix that fits in 50 UTF-16 units (the next character would not fit) + `..."`. |
| Social.TwitterDescriptionBmp | src/lib/social.ts:132 | Without astral characters, the description holds the first 50 characters. |
| Social.CreateTwitterPostTask | src/lib/social.ts:126-138 | An uncompleted Twitter post whose deep link and web fallback decode back to the content. |
| Social.CreateDiscordCheckTask | src/lib/social.ts:141-157 | An uncompleted Discord check with the `discord://channels/<s>/<c>` link and the matching web fallback. |
| Social.CreateGitHubReviewTask | src/lib/social.ts:160-177 | An uncompleted review with `targetUrl == webFallback ==` the pull-request URL. |
| Social.CreateLinkedInShareTask | src/lib/social.ts:180-191 | An uncompleted LinkedIn share whose fallback's first query field decodes to the URL. |
| Social.CreateSampleSocialTasks | src/lib/social.ts:194-234 | Five uncompleted tasks, one per platform in table order. |
| Social.SampleIdsDistinct | src/lib/social.ts:194-234 | The sample ids are pairwise distinct. |
| Social.SampleChecksIds | src/lib/social.ts:197-232 | The four fixed sample ids are pairwise distinct and none starts like a clock-made twitter id. |
| SocialTasks.NewSocialTask | src/store/socialStore.ts:29-34 | The draft's fields, with the given id, not completed. |
| SocialTasks.MarkDone | src/store/socialStore.ts:41 | Completed, and nothing else changed. |
| SocialTasks.MarkDoneLaws | src/store/socialStore.ts:38-44 | Completing is idempotent and takes the task out of the pending tasks. |
| SocialTasks.PendingCompletedPartition | src/store/socialStore.ts:69-75 | Pending and completed tasks partition any list. |
| SocialTasks.SocialStore.constructor | src/store/socialStore.ts:27 | The store starts empty. |
| SocialTasks.SocialStore.AddSocialTask | src/store/socialStore.ts:29-36 | Appends exactly the new, uncompleted task. |
| SocialTasks.SocialStore.CompleteSocialTask | src/store/socialStore.ts:38-44 | Completes the tasks with the id only; none of them is pending afterwards. |
| SocialTasks.SocialStore.DeleteSocialTask | src/store/socialStore.ts:46-50 | Removes every task with the id; every other task is kept as many times as it occurred, in order. |
| SocialTasks.SocialStore.ExecuteTask | src/store/socialStore.ts:52-58 | Nothing for an unknown id; otherwise the launch of the first task with the id. |
| SocialTasks.SocialStore.LoadSampleTasks | src/store/socialStore.ts:60-63 | The list becomes the sample list: nothing completed, five pending. |
| SocialTasks.SocialStore.GetTasksByPlatform | src/store/socialStore.ts:65-67 | Exactly the tasks of that platform, each as many times as it occurs, in order. |
| SocialTasks.SocialStore.GetPendingTasks | src/store/socialStore.ts:69-71 | Exactly the uncompleted tasks, each as many times as it occurs, in order. |
| SocialTasks.SocialStore.GetCompletedCount | src/store/socialStore.ts:73-75 | At most the number of tasks; 0 exactly when none is completed, and the full count exactly when all are. |
| SocialTasks.NoneCompletedAllPending | src/store/socialStore.ts:60-71 | With nothing completed, every task is pending. |
| SocialTasks.PendingPlusCompleted | src/store/socialStore.ts:69-75 | Pending plus completed equals the number of tasks. |
| SocialTasks.CompletedCountIsMetricsTotal | src/store/socialStore.ts:73-75 | The store's completed count is the sum of the per-platform metrics. |
| Web3.ChainOrderComplete | src/lib/web3.ts:28-65 | The iteration order of the chain table names every chain. |
| Web3.HexIdsDistinct | src/lib/web3.ts:28-65 | No two chains share a hex id. |
| Web3.GetChainIdFromHex | src/lib/web3.ts:157-164 | The loop finds the chain with that hex id, so `getChainIdFromHex(chains[c].chainIdHex) == c`; for a hex id not in the table it returns null. |
| Web3.Take | src/lib/web3.ts:168 | `slice(0, n)` on characters. |
| Web3.TakeLast | src/lib/web3.ts:168 | `slice(-n)` on characters. |
| Web3.FormatAddress | src/lib/web3.ts:167-169 | The first six characters, then `...`, then the last four. |
| Web3.FormatLongAddress | src/lib/web3.ts:167-169 | For an address of 10 or more characters, the result has 13 characters: the first 6, `...`, and the last 4. |
| Web3.DisconnectWallet | src/lib/web3.ts:111-118 | Not connected, with address, chain and balance all null. |
| Web3.CreateSampleWeb3Tasks | src/lib/web3.ts:228-268 | Four uncompleted tasks with distinct ids; only the first has a deadline, two days ahead. |
| Web3Tasks.NewWeb3Task | src/store/web3Store.ts:90-95 | The draft's fields, with the given id, not completed. |
| Web3Tasks.CompleteById | src/store/web3Store.ts:99-105 | Completes the tasks with the id only. |
| Web3Tasks.CompleteByIdLaws | src/store/web3Store.ts:99-105 | Completing is idempotent, and every task with the id ends up completed. |
| Web3Tasks.CompleteAbsent | src/store/web3Store.ts:99-105 | An absent id changes nothing. |
| Web3Tasks.Web3Store.constructor | src/store/web3Store.ts:35-43 | Disconnected wallet, no tasks, not connecting, no error. |
| Web3Tasks.Web3Store.DisconnectWallet | src/store/web3Store.ts:75-77 | The wallet becomes the disconnected state; nothing else changes. |
| Web3Tasks.Web3Store.AddWeb3Task | src/store/web3Store.ts:90-97 | Appends exactly the new, uncompleted task. |
| Web3Tasks.Web3Store.CompleteWeb3Task | src/store/web3Store.ts:99-105 | The tasks become `CompleteById`; nothing else changes. |
| Web3Tasks.Web3Store.ExecuteTask | src/store/web3Store.ts:107-116 | An unknown id returns 'Task not found' and changes nothing. Otherwise the first task with the id is executed, its result is returned, and the tasks are completed exactly when that result reports success. |
| Web3Tasks.Web3Store.LoadSampleTasks | src/store/web3Store.ts:118-121 | The tasks become the sample list; the wallet is kept. |
| Web3Tasks.Web3Store.ClearError | src/store/web3Store.ts:123-125 | The error is null; nothing else changes. |
| TimerView.TwoDigits | src/components/features/Timer.tsx:11 | `n.toString().padStart(2, '0')`: digits denoting `n`, at least two of them, and never truncated. |
| TimerView.FormatTime | src/components/features/Timer.tsx:8-12 | The text after the colon denotes `seconds mod 60` in two digits; the text before it denotes `floor(seconds / 60)`, padded to at least two digits. |
| TimerView.FormatTimeShort | src/components/features/Timer.tsx:8-12 | Below 6000 seconds the output has exactly 5 characters, with `:` at index 2. |
| TimerView.RemainingSeconds | src/components/features/Timer.tsx:56 | Never negative; 0 once elapsed reaches the target; otherwise elapsed plus remaining equals the target. |
| TimerView.AutoStopWhenNothingLeft | src/components/features/Timer.tsx:48-56 | A running session is auto-stopped exactly when no time remains. |
| TimerView.CheckCompletion | src/components/features/Timer.tsx:47-54 | When running past the target: stops the timer, recording the entry, and sets the mascot to celebrating with the target's message. Otherwise: changes nothing. |
| Mascot.HoursBetween | src/components/features/Mascot.tsx:39 | The hours since the last interaction, exceeding 2 or 0.5 exactly when the milliseconds exceed 2 or 0.5 hours. |
| Mascot.CheckMood | src/components/features/Mascot.tsx:34-63 | The guard chain as five if-and-only-if conditions: more than 3 overdue gives scheming; else all of today's habits done (at least one) gives celebrating; else more than 2 hours gives sad; else more than half an hour with a mood other than neutral gives neutral; else no change. |
| Mascot.OverdueDominates | src/components/features/Mascot.tsx:42-45 | With more than 3 overdue tasks, the habits, the idle time and the mood do not matter. |
| Mascot.CheckMoodSettles | src/components/features/Mascot.tsx:41-62 | Checking again at once after a mood was installed installs the same mood or changes nothing. |
| Mascot.ApplyMoodChange | src/components/features/Mascot.tsx:41-62 | No change leaves the mascot as it was; a new mood goes through `setMascotMood`. |
| Mascot.CheckMoodNow | src/components/features/Mascot.tsx:34-63 | One check against the stores: the overdue, today's and completed-today counts and the hours since the last interaction decide the change, and only the mascot is written. |
| Mascot.ClickAvatar | src/components/features/Mascot.tsx:89 | Happy, with `Hi there! Let's be productive!`, stamped now. |

## Left out

- Rendering, styling and the UI kit: the JSX of every component, `src/components/ui` and the Tailwind configuration.
- Wallet provider calls: `connectWallet`, `switchChain`, `signMessage`, `executeWeb3Task` and the wallet listeners, and the store's async `connectWallet`/`switchChain` with its `isConnecting` flag. These are foreign `window.ethereum` requests. The outcome of `executeWeb3Task` is a function parameter of `Web3Tasks.Web3Store.ExecuteTask`.
- The browser Notification API: `requestNotificationPermission`, `sendBrowserNotification` and `scheduleNotification`. `openDeepLink` and the `window.open`/`window.location` side effects of `executeSocialTask` are also left out. `Social.ExecuteSocialTask` returns the launch decision instead of performing it.
- Polling loops and timers: the one-second tick interval, the five-minute mascot interval, the notification centre's poll and its random 30% gate. One check is one call.
- Zustand `persist`, localStorage snapshots and `partialize`.
- `Math.random` and the clock. Ids, random picks, `now`, `today`, the day bounds and the weekday are parameters.
- The difference between local time and UTC when `calculateStreak` computes "yesterday", and `getDay`. Dates are whole day numbers, and the weekday is a parameter.
- Floating point. Wei-to-ETH balance and progress percentages are not modelled. Hours are exact reals, and `Math.floor` of them is the exact floor.
- Strings are sequences of Unicode scalar values. JavaScript strings are UTF-16, so lone surrogates cannot be represented. `slice` in `createTwitterPostTask` is modelled on UTF-16 code units; `formatAddress` slices characters, which is the same thing for hexadecimal addresses.
- The `Audio` chime played when the timer completes.
- Notes.NoteStore.SearchNotes: lower-cases through `Text.ToLower`, which maps only the capitals with a one-to-one, context-free lower case (ASCII, Latin-1, Greek except sigma, basic Cyrillic). The rest of Unicode case mapping that `toLowerCase` performs is not modelled: other scripts, the final-sigma rule, and mappings that change the length such as U+0130.
- Notes.SearchIgnoresCase: holds for `Text.ToLower`, so it covers the same capitals and no more.
- Text.ToLower: the same restriction, for the same reason: full Unicode case data is out of scope.
- `Timers.TimerStore.TotalTimeToday` and `Timers.TimerStore.GetTimeByCategory` are stated through the lemmas `CategoryTimeBounded` and `CategoryTimesAddUp`, not through contracts of their own.
- `Date` objects are represented as numbers. Date parsing and `toISOString` formatting are not modelled: completion dates are day numbers, and due dates and start times are milliseconds.

## Findings

| source | as written | input that shows it | evidently intended | confidence | as-written member | corrected member |
|---|---|---|---|---|---|---|
| src/lib/deepLinks.ts:32 | The web branch takes `url.split('/app/')[1]`, which drops everything from a second `/app/` on. | `generateWebDeepLink({action: 'complete-task', id: 'app'}, base)` yields `base/app/task/app/complete`. That parses to `{action: 'open-task', id: undefined}`, so `handleIncomingDeepLink` calls `onOpenTask(undefined)` instead of `onCompleteTask('app')`. | Parse all the text after the first `/app/`, so that every generated web link reads back as its link. | not executed | DeepLinks.ParseDeepLinkAsWritten, DeepLinks.HandleIncomingDeepLink (DeepLinks.WebLinkFinding, DeepLinks.WebLinkDispatchFinding) | DeepLinks.ParseDeepLink, DeepLinks.HandleIncomingDeepLinkCorrected (DeepLinks.WebRoundTrip, DeepLinks.WebLinkDispatchFinding) |
