/**
 * The habit store: habits with their completion dates, the streak that
 * counts back from the most recent completion, and the selectors the habit
 * tracker reads. Completion dates are day numbers; `today` and the weekday
 * are parameters standing for the clock.
 */
module Habits {
  import opened Wrappers
  import opened Seqs
  import opened Types

  // ---------------------------------------------------------------------
  // Sorting the completion dates, newest first
  // ---------------------------------------------------------------------

  predicate SortedDesc(s: seq<int>) {
    forall i, j :: 0 <= i < j < |s| ==> s[i] >= s[j]
  }

  /** Every element of `t` is at most `bound`. */
  predicate AtMost(t: seq<int>, bound: int) {
    forall y :: y in t ==> y <= bound
  }

  lemma ConsSorted(h: int, t: seq<int>)
    requires SortedDesc(t) && AtMost(t, h)
    ensures SortedDesc([h] + t)
  {
    var r := [h] + t;
    forall i, j | 0 <= i < j < |r| ensures r[i] >= r[j] {
      assert r[j] == t[j - 1];
      if i > 0 {
        assert r[i] == t[i - 1];
      } else {
        assert t[j - 1] in t;
      }
    }
  }

  lemma AtMostOfMultiset(t: seq<int>, s: seq<int>, x: int, bound: int)
    requires multiset(t) == multiset(s) + multiset{x}
    requires AtMost(s, bound) && x <= bound
    ensures AtMost(t, bound)
  {
    forall y | y in t ensures y <= bound {
      assert y in multiset(t);
      if y != x {
        assert y in multiset(s);
        assert y in s;
      }
    }
  }

  /** Puts `x` into a sequence sorted newest first. */
  function InsertDesc(x: int, s: seq<int>): (r: seq<int>)
    requires SortedDesc(s)
    ensures SortedDesc(r)
    ensures multiset(r) == multiset(s) + multiset{x}
    ensures |r| == |s| + 1
    decreases |s|
  {
    if s == [] || x >= s[0] then
      assert AtMost(s, x) by {
        forall y | y in s ensures y <= x {
          var k :| 0 <= k < |s| && s[k] == y;
        }
      }
      ConsSorted(x, s);
      [x] + s
    else
      var t := InsertDesc(x, s[1..]);
      assert s == [s[0]] + s[1..];
      assert AtMost(s[1..], s[0]) by {
        forall y | y in s[1..] ensures y <= s[0] {
          var k :| 0 <= k < |s[1..]| && s[1..][k] == y;
          assert s[k + 1] == y;
        }
      }
      AtMostOfMultiset(t, s[1..], x, s[0]);
      ConsSorted(s[0], t);
      [s[0]] + t
  }

  /** `[...completedDates].sort().reverse()`: the same dates, newest first. */
  function SortDesc(s: seq<int>): (r: seq<int>)
    ensures SortedDesc(r)
    ensures multiset(r) == multiset(s)
    ensures |r| == |s|
    decreases |s|
  {
    if s == [] then []
    else
      assert s == [s[0]] + s[1..];
      InsertDesc(s[0], SortDesc(s[1..]))
  }

  /** The head of a descending sequence is its largest element. */
  lemma HeadIsMax(s: seq<int>, x: int)
    requires SortedDesc(s) && x in multiset(s)
    ensures s != [] && x <= s[0]
  {
    var i :| 0 <= i < |s| && s[i] == x;
  }

  /** The tail of a descending sequence is descending and holds the other elements. */
  lemma Tail(s: seq<int>)
    requires SortedDesc(s) && s != []
    ensures SortedDesc(s[1..])
    ensures multiset(s[1..]) == multiset(s) - multiset{s[0]}
  {
    assert s == [s[0]] + s[1..];
  }

  /** Sorting has one answer: two sorted arrangements of the same dates are equal. */
  lemma {:induction false} SortedUnique(a: seq<int>, b: seq<int>)
    requires SortedDesc(a) && SortedDesc(b)
    requires multiset(a) == multiset(b)
    ensures a == b
    decreases |a|
  {
    assert |a| == |multiset(a)| == |b|;
    if a != [] {
      SameHead(a, b);
      SameTail(a, b);
      SortedUnique(a[1..], b[1..]);
      SameHeadAndTail(a, b);
    }
  }

  /** Two non-empty descending arrangements of the same dates start with the same, largest, date. */
  lemma SameHead(a: seq<int>, b: seq<int>)
    requires SortedDesc(a) && SortedDesc(b) && a != [] && multiset(a) == multiset(b)
    ensures b != [] && a[0] == b[0]
  {
    assert a[0] in multiset(a) && b[0] in multiset(b);
    HeadIsMax(b, a[0]);
    HeadIsMax(a, b[0]);
  }

  /** Their tails are again descending arrangements of the same dates. */
  lemma SameTail(a: seq<int>, b: seq<int>)
    requires SortedDesc(a) && SortedDesc(b) && a != [] && b != [] && a[0] == b[0] && multiset(a) == multiset(b)
    ensures SortedDesc(a[1..]) && SortedDesc(b[1..]) && multiset(a[1..]) == multiset(b[1..])
  {
    Tail(a);
    Tail(b);
  }

  lemma SameHeadAndTail(a: seq<int>, b: seq<int>)
    requires a != [] && b != [] && a[0] == b[0] && a[1..] == b[1..]
    ensures a == b
  {
    assert a == [a[0]] + a[1..];
    assert b == [b[0]] + b[1..];
  }

  /** `d` is a completion date and no completion date is later. */
  predicate IsLatest(dates: seq<int>, d: int) {
    d in dates && forall x :: x in dates ==> x <= d
  }

  lemma SortDescHead(dates: seq<int>)
    requires dates != []
    ensures IsLatest(dates, SortDesc(dates)[0])
  {
    var s := SortDesc(dates);
    assert s[0] in multiset(dates);
    forall x | x in dates ensures x <= s[0] {
      assert x in multiset(s);
    }
  }

  // ---------------------------------------------------------------------
  // The streak
  // ---------------------------------------------------------------------

  /** How many leading dates are one day apart from the date before them, counting the first. */
  function Run(s: seq<int>): (k: nat)
    requires |s| >= 1
    ensures 1 <= k <= |s|
    decreases |s|
  {
    if |s| >= 2 && s[0] - s[1] == 1 then 1 + Run(s[1..]) else 1
  }

  /**
   * `calculateStreak`: no dates, or a latest date that is neither today nor
   * yesterday, give 0; otherwise the length of the run of consecutive days
   * that ends at the latest date.
   */
  function Streak(completedDates: seq<int>, today: int): (r: nat)
    ensures r <= |completedDates|
  {
    if |completedDates| == 0 then 0
    else
      var sorted := SortDesc(completedDates);
      if sorted[0] != today && sorted[0] != today - 1 then 0 else Run(sorted)
  }

  /** The loop of `calculateStreak`, which walks the sorted dates until two neighbours are not one day apart. */
  method CalculateStreak(completedDates: seq<int>, today: int) returns (streak: nat)
    ensures streak == Streak(completedDates, today)
  {
    if |completedDates| == 0 {
      return 0;
    }
    var sortedDates := SortDesc(completedDates);
    if sortedDates[0] != today && sortedDates[0] != today - 1 {
      return 0;
    }
    streak := 1;
    var i := 1;
    while i < |sortedDates|
      invariant 1 <= i <= |sortedDates|
      invariant streak == i
      invariant Run(sortedDates) == i - 1 + Run(sortedDates[i - 1..])
    {
      var diffDays := sortedDates[i - 1] - sortedDates[i];
      assert sortedDates[i - 1..][1] == sortedDates[i];
      if diffDays == 1 {
        streak := streak + 1;
      } else {
        break;
      }
      assert sortedDates[i - 1..][1..] == sortedDates[i..];
      i := i + 1;
    }
  }

  /** The streak is broken exactly when the latest completion is neither today nor yesterday. */
  lemma StreakActive(dates: seq<int>, today: int, latest: int)
    requires IsLatest(dates, latest)
    ensures Streak(dates, today) >= 1 <==> latest == today || latest == today - 1
  {
    SortDescHead(dates);
  }

  /** A completion recorded for a day after today leaves no streak at all. */
  lemma StreakFutureDate(dates: seq<int>, today: int, d: int)
    requires d in dates && d > today
    ensures Streak(dates, today) == 0
  {
    SortDescHead(dates);
  }

  /** The streak depends on which dates are completed, not on the order they were recorded in. */
  lemma StreakIgnoresOrder(a: seq<int>, b: seq<int>, today: int)
    requires multiset(a) == multiset(b)
    ensures Streak(a, today) == Streak(b, today)
  {
    assert |a| == |multiset(a)| == |b|;
    SortedUnique(SortDesc(a), SortDesc(b));
  }

  /** Two positions holding the same value make it occur at least twice. */
  lemma DuplicateMultiplicity(b: seq<int>, i: nat, j: nat)
    requires i < j < |b|
    ensures b[i] == b[j] ==> multiset(b)[b[i]] >= 2
  {
    assert b == b[..j] + b[j..];
    assert b[i] == b[..j][i];
    assert b[j] == b[j..][0];
  }

  /** Rearranging a duplicate-free sequence keeps it duplicate-free. */
  lemma PermutationNoDuplicates(a: seq<int>, b: seq<int>)
    requires NoDuplicates(a) && multiset(a) == multiset(b)
    ensures NoDuplicates(b)
  {
    forall i, j | 0 <= i < j < |b| ensures b[i] != b[j] {
      DuplicateMultiplicity(b, i, j);
      NoDuplicatesMultiplicity(a, b[i]);
    }
  }

  /** The shape of a run over strictly decreasing dates: consecutive days, then a gap of more than one day. */
  lemma {:induction false} RunShape(s: seq<int>)
    requires |s| >= 1
    requires forall i, j :: 0 <= i < j < |s| ==> s[i] > s[j]
    ensures forall j :: 0 <= j < Run(s) ==> s[j] == s[0] - j
    ensures Run(s) < |s| ==> s[Run(s)] < s[0] - Run(s)
    decreases |s|
  {
    if |s| >= 2 && s[0] - s[1] == 1 {
      var t := s[1..];
      RunShape(t);
      forall j | 0 <= j < Run(s) ensures s[j] == s[0] - j {
        if j > 0 {
          assert s[j] == t[j - 1];
        }
      }
      if Run(s) < |s| {
        assert s[Run(s)] == t[Run(t)];
      }
    }
  }

  /** Over strictly decreasing dates the run covers the days `s[0] - Run(s) + 1 .. s[0]` and misses the day before. */
  lemma RunDays(s: seq<int>)
    requires |s| >= 1
    requires forall i, j :: 0 <= i < j < |s| ==> s[i] > s[j]
    ensures forall d :: s[0] - Run(s) < d <= s[0] ==> d in s
    ensures s[0] - Run(s) !in s
  {
    RunShape(s);
    var k := Run(s);
    RunCovered(s, k);
    RunGap(s, k);
  }

  /** The days `s[0] - k + 1 .. s[0]` held by the first `k` dates of a run are all present. */
  lemma RunCovered(s: seq<int>, k: nat)
    requires 1 <= k <= |s|
    requires forall j :: 0 <= j < k ==> s[j] == s[0] - j
    ensures forall d :: s[0] - k < d <= s[0] ==> d in s
  {
    forall d | s[0] - k < d <= s[0] ensures d in s {
      var idx := s[0] - d;
      assert s[idx] == s[0] - idx;
    }
  }

  /** Over strictly decreasing dates, a run of `k` days followed by a wider gap misses the day `s[0] - k`. */
  lemma RunGap(s: seq<int>, k: nat)
    requires 1 <= k <= |s|
    requires forall i, j :: 0 <= i < j < |s| ==> s[i] > s[j]
    requires forall j :: 0 <= j < k ==> s[j] == s[0] - j
    requires k < |s| ==> s[k] < s[0] - k
    ensures s[0] - k !in s
  {
    forall idx | 0 <= idx < |s| ensures s[idx] != s[0] - k {
      if idx < k {
        assert s[idx] == s[0] - idx;
      } else if idx > k {
        assert s[k] > s[idx];
      }
    }
  }

  /**
   * Without duplicate dates an active streak of `k` days means: every day
   * from `latest - k + 1` to `latest` is completed and the day before them
   * is not.
   */
  lemma StreakCountsConsecutiveDays(dates: seq<int>, today: int, latest: int)
    requires NoDuplicates(dates) && IsLatest(dates, latest)
    requires latest == today || latest == today - 1
    ensures Streak(dates, today) >= 1
    ensures forall d :: latest - Streak(dates, today) < d <= latest ==> d in dates
    ensures latest - Streak(dates, today) !in dates
  {
    var s := SortDesc(dates);
    SortDescHead(dates);
    assert s[0] == latest;
    assert Streak(dates, today) == Run(s);
    SortedRunDays(dates);
  }

  /** `RunDays` read back on the unsorted dates. */
  lemma SortedRunDays(dates: seq<int>)
    requires NoDuplicates(dates) && dates != []
    ensures forall d :: SortDesc(dates)[0] - Run(SortDesc(dates)) < d <= SortDesc(dates)[0] ==> d in dates
    ensures forall i :: 0 <= i < |dates| ==> dates[i] != SortDesc(dates)[0] - Run(SortDesc(dates))
  {
    var s := SortDesc(dates);
    PermutationNoDuplicates(dates, s);
    PermutedRunDays(dates, s);
  }

  lemma PermutedRunDays(dates: seq<int>, s: seq<int>)
    requires multiset(dates) == multiset(s) && |s| >= 1
    requires forall i, j :: 0 <= i < j < |s| ==> s[i] > s[j]
    ensures forall d :: s[0] - Run(s) < d <= s[0] ==> d in dates
    ensures forall i :: 0 <= i < |dates| ==> dates[i] != s[0] - Run(s)
  {
    RunDays(s);
    SameMembers(dates, s);
  }

  /** Sequences with the same multiset have the same members. */
  lemma SameMembers(a: seq<int>, b: seq<int>)
    requires multiset(a) == multiset(b)
    ensures forall x :: x in a <==> x in b
  {
    forall x ensures x in a <==> x in b {
      assert x in a <==> x in multiset(a);
      assert x in b <==> x in multiset(b);
    }
  }

  /** A latest date recorded twice stops the streak at one: the two copies are zero days apart. */
  lemma StreakDuplicateLatest(dates: seq<int>, today: int, latest: int)
    requires IsLatest(dates, latest) && multiset(dates)[latest] >= 2
    requires latest == today || latest == today - 1
    ensures Streak(dates, today) == 1
  {
    var s := SortDesc(dates);
    SortDescHead(dates);
    assert s == [s[0]] + s[1..];
    assert latest in multiset(s[1..]);
    var k :| 0 <= k < |s[1..]| && s[1..][k] == latest;
    assert s[1] >= s[k + 1];
  }

  // ---------------------------------------------------------------------
  // Toggling a completion
  // ---------------------------------------------------------------------

  /** `dates.filter(d => d !== date)` */
  function RemoveDate(dates: seq<int>, date: int): (r: seq<int>)
    ensures multiset(r) == multiset(dates)[date := 0]
    ensures forall x :: x in r <==> x in dates && x != date
    ensures NoDuplicates(dates) ==> NoDuplicates(r)
  {
    var keep := (x: int) => x != date;
    FilterSpec(dates, keep);
    FilterOutMultiset(dates, keep, date);
    FilterNoDuplicates(dates, keep);
    Filter(dates, keep)
  }

  /** The new completion dates: `date` removed when present, appended when absent. */
  function ToggleDates(dates: seq<int>, date: int): (r: seq<int>)
    ensures date in r <==> date !in dates
    ensures forall x :: x != date ==> (x in r <==> x in dates)
  {
    if date in dates then RemoveDate(dates, date) else dates + [date]
  }

  lemma ToggleKeepsNoDuplicates(dates: seq<int>, date: int)
    requires NoDuplicates(dates)
    ensures NoDuplicates(ToggleDates(dates, date))
  {
  }

  /** Toggling the same day twice restores the completed days, and with them the streak. */
  lemma ToggleTwice(dates: seq<int>, date: int, today: int)
    requires NoDuplicates(dates)
    ensures multiset(ToggleDates(ToggleDates(dates, date), date)) == multiset(dates)
    ensures Streak(ToggleDates(ToggleDates(dates, date), date), today) == Streak(dates, today)
  {
    var once := ToggleDates(dates, date);
    var twice := ToggleDates(once, date);
    NoDuplicatesMultiplicity(dates, date);
    if date in dates {
      assert twice == once + [date];
      assert multiset(twice) == multiset(dates)[date := 0] + multiset{date};
    } else {
      assert once == dates + [date];
      assert multiset(once) == multiset(dates) + multiset{date};
      assert twice == RemoveDate(once, date);
    }
    assert multiset(twice) == multiset(dates);
    StreakIgnoresOrder(twice, dates, today);
  }

  /** The habit after `toggleHabitCompletion` on `date`, with the streak recomputed for `today`. */
  function Toggled(h: Habit, date: int, today: int): (r: Habit)
    ensures r.completedDates == ToggleDates(h.completedDates, date)
    ensures r.streak == Streak(r.completedDates, today)
    ensures r.longestStreak >= r.streak && r.longestStreak >= h.longestStreak
    ensures r.longestStreak == h.longestStreak || r.longestStreak == r.streak
    ensures r == h.(completedDates := r.completedDates, streak := r.streak, longestStreak := r.longestStreak)
  {
    var dates := ToggleDates(h.completedDates, date);
    var streak := Streak(dates, today);
    h.(completedDates := dates, streak := streak,
       longestStreak := if h.longestStreak >= streak then h.longestStreak else streak)
  }

  // ---------------------------------------------------------------------
  // Adding and updating habits
  // ---------------------------------------------------------------------

  /** What `addHabit` is given: a habit without id, creation time, streaks and dates. */
  datatype HabitDraft = HabitDraft(
    title: string,
    description: Option<string>,
    frequency: HabitFrequency,
    targetDays: Option<seq<int>>,
    color: string,
    icon: string)

  function NewHabit(draft: HabitDraft, id: string, now: int): (h: Habit)
    ensures h.id == id && h.createdAt == now
    ensures h.streak == 0 && h.longestStreak == 0 && h.completedDates == []
    ensures h.title == draft.title && h.description == draft.description
    ensures h.frequency == draft.frequency && h.targetDays == draft.targetDays
    ensures h.color == draft.color && h.icon == draft.icon
  {
    Habit(id, draft.title, draft.description, draft.frequency, draft.targetDays,
          0, 0, [], now, draft.color, draft.icon)
  }

  /**
   * `Partial<Habit>`: every property may be given. Optional properties take an
   * `Option<Option<..>>`, whose inner `None` sets them to `undefined`.
   */
  datatype HabitUpdate = HabitUpdate(
    id: Option<string>,
    title: Option<string>,
    description: Option<Option<string>>,
    frequency: Option<HabitFrequency>,
    targetDays: Option<Option<seq<int>>>,
    streak: Option<int>,
    longestStreak: Option<int>,
    completedDates: Option<seq<int>>,
    createdAt: Option<int>,
    color: Option<string>,
    icon: Option<string>)

  const NoHabitUpdate := HabitUpdate(None, None, None, None, None, None, None, None, None, None, None)

  /** `{ ...habit, ...updates }`: a property given in `updates` wins, every other one is kept. */
  function MergeHabit(h: Habit, u: HabitUpdate): (r: Habit)
    ensures r.id == if u.id.Some? then u.id.value else h.id
    ensures r.title == if u.title.Some? then u.title.value else h.title
    ensures r.description == if u.description.Some? then u.description.value else h.description
    ensures r.frequency == if u.frequency.Some? then u.frequency.value else h.frequency
    ensures r.targetDays == if u.targetDays.Some? then u.targetDays.value else h.targetDays
    ensures r.streak == if u.streak.Some? then u.streak.value else h.streak
    ensures r.longestStreak == if u.longestStreak.Some? then u.longestStreak.value else h.longestStreak
    ensures r.completedDates == if u.completedDates.Some? then u.completedDates.value else h.completedDates
    ensures r.createdAt == if u.createdAt.Some? then u.createdAt.value else h.createdAt
    ensures r.color == if u.color.Some? then u.color.value else h.color
    ensures r.icon == if u.icon.Some? then u.icon.value else h.icon
  {
    Habit(
      u.id.GetOr(h.id),
      u.title.GetOr(h.title),
      u.description.GetOr(h.description),
      u.frequency.GetOr(h.frequency),
      u.targetDays.GetOr(h.targetDays),
      u.streak.GetOr(h.streak),
      u.longestStreak.GetOr(h.longestStreak),
      u.completedDates.GetOr(h.completedDates),
      u.createdAt.GetOr(h.createdAt),
      u.color.GetOr(h.color),
      u.icon.GetOr(h.icon))
  }

  /** An empty update changes nothing, and applying the same update twice is applying it once. */
  lemma MergeHabitLaws(h: Habit, u: HabitUpdate)
    ensures MergeHabit(h, NoHabitUpdate) == h
    ensures MergeHabit(MergeHabit(h, u), u) == MergeHabit(h, u)
  {
  }

  /** Whether `getTodaysHabits` lists a habit on `weekday` (0 is Sunday, as `Date.getDay`). */
  predicate ScheduledOn(h: Habit, weekday: int) {
    h.frequency == Custom && h.targetDays.Some? ==> weekday in h.targetDays.value
  }

  // ---------------------------------------------------------------------
  // The store
  // ---------------------------------------------------------------------

  class HabitStore {
    var habits: seq<Habit>

    constructor()
      ensures habits == []
    {
      habits := [];
    }

    /** Appends a fresh habit with no completions; `id` and `now` stand for the generated id and the clock. */
    method AddHabit(draft: HabitDraft, id: string, now: int)
      modifies this
      ensures habits == old(habits) + [NewHabit(draft, id, now)]
    {
      habits := habits + [NewHabit(draft, id, now)];
    }

    /** Merges `updates` into every habit with this id, in place. */
    method UpdateHabit(id: string, updates: HabitUpdate)
      modifies this
      ensures |habits| == |old(habits)|
      ensures forall i :: 0 <= i < |habits| ==>
        habits[i] == if old(habits)[i].id == id then MergeHabit(old(habits)[i], updates) else old(habits)[i]
    {
      habits := MapWhere(habits, (h: Habit) => h.id == id, (h: Habit) => MergeHabit(h, updates));
    }

    /** Removes every habit with this id and keeps the others in order. */
    method DeleteHabit(id: string)
      modifies this
      ensures forall h :: h in habits <==> h in old(habits) && h.id != id
      ensures forall h :: multiset(habits)[h] == if h.id != id then multiset(old(habits))[h] else 0
      ensures IsSubsequence(habits, old(habits))
    {
      FilterSpec(habits, (h: Habit) => h.id != id);
      habits := Filter(habits, (h: Habit) => h.id != id);
    }

    /**
     * Toggles `date` (today when absent) on every habit with this id and
     * recomputes its streak and longest streak.
     */
    method ToggleHabitCompletion(id: string, date: Option<int>, today: int)
      modifies this
      ensures |habits| == |old(habits)|
      ensures forall i :: 0 <= i < |habits| ==>
        habits[i] == if old(habits)[i].id == id then Toggled(old(habits)[i], date.GetOr(today), today) else old(habits)[i]
    {
      var d := date.GetOr(today);
      habits := MapWhere(habits, (h: Habit) => h.id == id, (h: Habit) => Toggled(h, d, today));
    }

    /** The streak of the first habit with this id, 0 when there is none. */
    function GetHabitStreak(id: string): (r: int)
      reads this
      ensures (forall i :: 0 <= i < |habits| ==> habits[i].id != id) ==> r == 0
      ensures forall i :: 0 <= i < |habits| && habits[i].id == id && (forall j :: 0 <= j < i ==> habits[j].id != id) ==>
        r == habits[i].streak
    {
      match Find(habits, (h: Habit) => h.id == id)
      case Some(h) => h.streak
      case None => 0
    }

    /** The habits due on `weekday`: all of them except custom ones whose target days leave it out. */
    function GetTodaysHabits(weekday: int): (r: seq<Habit>)
      reads this
      ensures forall h :: h in r <==> h in habits && ScheduledOn(h, weekday)
      ensures forall h :: multiset(r)[h] == if ScheduledOn(h, weekday) then multiset(habits)[h] else 0
      ensures forall h :: h in habits && h.frequency != Custom ==> h in r
      ensures IsSubsequence(r, habits)
    {
      FilterSpec(habits, (h: Habit) => ScheduledOn(h, weekday));
      Filter(habits, (h: Habit) => ScheduledOn(h, weekday))
    }

    /** How many habits have `today` among their completion dates. */
    function GetCompletedTodayCount(today: int): (r: nat)
      reads this
      ensures r <= |habits|
      ensures r == |habits| <==> forall i :: 0 <= i < |habits| ==> today in habits[i].completedDates
      ensures r == 0 <==> forall i :: 0 <= i < |habits| ==> today !in habits[i].completedDates
    {
      CountAllNone(habits, (h: Habit) => today in h.completedDates);
      Count(habits, (h: Habit) => today in h.completedDates)
    }
  }
}
