/**
 * The focus timer: a small state machine (idle, running, paused) with an
 * elapsed-seconds counter, the entry being timed, and the log of finished
 * entries that the daily totals are summed over. The generated id and the
 * clock are parameters.
 */
module Timers {
  import opened Wrappers
  import opened Seqs
  import opened Types

  const DefaultTargetMinutes := 25

  /** `reduce((total, entry) => total + entry.duration, 0)` */
  function SumDurations(s: seq<TimeEntry>): int
    decreases |s|
  {
    if s == [] then 0 else s[0].duration + SumDurations(s[1..])
  }

  predicate NonNegativeDurations(s: seq<TimeEntry>) {
    forall i :: 0 <= i < |s| ==> s[i].duration >= 0
  }

  lemma {:induction false} SumDurationsAppend(a: seq<TimeEntry>, b: seq<TimeEntry>)
    ensures SumDurations(a + b) == SumDurations(a) + SumDurations(b)
    decreases |a|
  {
    if a == [] {
      assert a + b == b;
    } else {
      SumDurationsAppend(a[1..], b);
      assert (a + b)[1..] == a[1..] + b;
    }
  }

  /** With no negative durations, leaving entries out never raises the sum. */
  lemma {:induction false} SumDurationsFilter(s: seq<TimeEntry>, p: TimeEntry -> bool)
    requires NonNegativeDurations(s)
    ensures 0 <= SumDurations(Filter(s, p)) <= SumDurations(s)
    decreases |s|
  {
    if s != [] {
      assert NonNegativeDurations(s[1..]) by {
        forall i | 0 <= i < |s[1..]| ensures s[1..][i].duration >= 0 {
          assert s[1..][i] == s[i + 1];
        }
      }
      SumDurationsFilter(s[1..], p);
      var t := Filter(s[1..], p);
      assert s[0].duration >= 0;
      if p(s[0]) {
        assert Filter(s, p) == [s[0]] + t;
        assert ([s[0]] + t)[1..] == t;
        assert SumDurations(Filter(s, p)) == s[0].duration + SumDurations(t);
      } else {
        assert Filter(s, p) == t;
      }
    }
  }

  lemma FilterNonNegative(s: seq<TimeEntry>, p: TimeEntry -> bool)
    requires NonNegativeDurations(s)
    ensures NonNegativeDurations(Filter(s, p))
  {
    FilterSpec(s, p);
    forall i | 0 <= i < |Filter(s, p)| ensures Filter(s, p)[i].duration >= 0 {
      assert Filter(s, p)[i] in s;
    }
  }

  function InCategory(category: TaskCategory): TimeEntry -> bool {
    (e: TimeEntry) => e.category == category
  }

  function StartedSince(dayStart: int): TimeEntry -> bool {
    (e: TimeEntry) => e.startTime >= dayStart
  }

  /** The first entry counts towards its own category's sum only. */
  lemma CategorySumStep(s: seq<TimeEntry>, c: TaskCategory)
    requires s != []
    ensures SumDurations(Filter(s, InCategory(c)))
         == (if s[0].category == c then s[0].duration else 0) + SumDurations(Filter(s[1..], InCategory(c)))
  {
    var t := Filter(s[1..], InCategory(c));
    if s[0].category == c {
      assert Filter(s, InCategory(c)) == [s[0]] + t;
      assert ([s[0]] + t)[1..] == t;
    } else {
      assert Filter(s, InCategory(c)) == t;
    }
  }

  /** The five per-category sums add up to the whole sum: every entry has exactly one category. */
  lemma {:induction false} CategorySumsAddUp(s: seq<TimeEntry>)
    ensures SumDurations(Filter(s, InCategory(Work))) + SumDurations(Filter(s, InCategory(Personal)))
          + SumDurations(Filter(s, InCategory(Social))) + SumDurations(Filter(s, InCategory(Web3)))
          + SumDurations(Filter(s, InCategory(Health))) == SumDurations(s)
    decreases |s|
  {
    if s != [] {
      CategorySumsAddUp(s[1..]);
      CategorySumStep(s, Work);
      CategorySumStep(s, Personal);
      CategorySumStep(s, Social);
      CategorySumStep(s, Web3);
      CategorySumStep(s, Health);
    }
  }

  /** The entry `stopTimer` logs: ended now, lasting the elapsed seconds. */
  function Closed(e: TimeEntry, now: int, elapsed: int): (r: TimeEntry)
    ensures r.endTime == Some(now) && r.duration == elapsed
    ensures r.(endTime := e.endTime, duration := e.duration) == e
  {
    e.(endTime := Some(now), duration := elapsed)
  }

  class TimerStore {
    var status: TimerStatus
    var currentEntry: Option<TimeEntry>
    var elapsedSeconds: int
    var targetMinutes: int
    var entries: seq<TimeEntry>

    /**
     * The states the actions can reach: an idle timer times nothing and
     * counts nothing, the counter never goes below zero, the entry being
     * timed is still open, and every logged entry is closed with a
     * non-negative duration.
     */
    predicate Valid()
      reads this
    {
      (status == Idle ==> currentEntry.None? && elapsedSeconds == 0)
      && elapsedSeconds >= 0
      && (currentEntry.Some? ==> currentEntry.value.endTime.None?)
      && NonNegativeDurations(entries)
      && (forall i :: 0 <= i < |entries| ==> entries[i].endTime.Some?)
    }

    constructor()
      ensures status == Idle && currentEntry == None && elapsedSeconds == 0
      ensures targetMinutes == DefaultTargetMinutes && entries == []
      ensures Valid()
    {
      status := Idle;
      currentEntry := None;
      elapsedSeconds := 0;
      targetMinutes := DefaultTargetMinutes;
      entries := [];
    }

    /** Starts timing a fresh entry from zero; any entry being timed is dropped without being logged. */
    method StartTimer(title: string, category: TaskCategory, taskId: Option<string>, id: string, now: int)
      modifies this
      ensures status == Running && elapsedSeconds == 0
      ensures currentEntry == Some(TimeEntry(id, taskId, title, now, None, 0, category))
      ensures targetMinutes == old(targetMinutes) && entries == old(entries)
      ensures old(Valid()) ==> Valid()
    {
      currentEntry := Some(TimeEntry(id, taskId, title, now, None, 0, category));
      status := Running;
      elapsedSeconds := 0;
    }

    /** Sets the status to paused whatever it was. */
    method PauseTimer()
      modifies this
      ensures status == Paused
      ensures currentEntry == old(currentEntry) && elapsedSeconds == old(elapsedSeconds)
      ensures targetMinutes == old(targetMinutes) && entries == old(entries)
      ensures old(Valid()) ==> Valid()
    {
      status := Paused;
    }

    /** Sets the status to running whatever it was. */
    method ResumeTimer()
      modifies this
      ensures status == Running
      ensures currentEntry == old(currentEntry) && elapsedSeconds == old(elapsedSeconds)
      ensures targetMinutes == old(targetMinutes) && entries == old(entries)
      ensures old(Valid()) ==> Valid()
    {
      status := Running;
    }

    /**
     * With an entry being timed: logs it, closed at `now` with the elapsed
     * seconds as its duration, adds those seconds to the day's total, and
     * returns to idle. Without one: changes nothing.
     */
    method StopTimer(now: int)
      modifies this
      ensures old(currentEntry).None? ==>
        status == old(status) && currentEntry == None && elapsedSeconds == old(elapsedSeconds) && entries == old(entries)
      ensures old(currentEntry).Some? ==>
        status == Idle && currentEntry == None && elapsedSeconds == 0
        && entries == old(entries) + [Closed(old(currentEntry).value, now, old(elapsedSeconds))]
      ensures old(currentEntry).Some? ==> forall dayStart :: old(currentEntry).value.startTime >= dayStart ==>
        TotalTimeToday(dayStart) == old(TotalTimeToday(dayStart)) + old(elapsedSeconds)
      ensures targetMinutes == old(targetMinutes)
      ensures old(Valid()) ==> Valid()
    {
      if currentEntry.Some? {
        var completed := Closed(currentEntry.value, now, elapsedSeconds);
        forall dayStart | completed.startTime >= dayStart
          ensures SumDurations(Filter(entries + [completed], StartedSince(dayStart)))
               == SumDurations(Filter(entries, StartedSince(dayStart))) + elapsedSeconds
        {
          FilterAppend(entries, [completed], StartedSince(dayStart));
          assert Filter([completed], StartedSince(dayStart)) == [completed];
          SumDurationsAppend(Filter(entries, StartedSince(dayStart)), [completed]);
        }
        status := Idle;
        currentEntry := None;
        elapsedSeconds := 0;
        entries := entries + [completed];
      }
    }

    /** Back to idle with nothing timed; the log is kept. */
    method ResetTimer()
      modifies this
      ensures status == Idle && currentEntry == None && elapsedSeconds == 0
      ensures targetMinutes == old(targetMinutes) && entries == old(entries)
      ensures old(Valid()) ==> Valid()
    {
      status := Idle;
      currentEntry := None;
      elapsedSeconds := 0;
    }

    /** One second passes: counted only while running. */
    method Tick()
      modifies this
      ensures elapsedSeconds == if old(status) == Running then old(elapsedSeconds) + 1 else old(elapsedSeconds)
      ensures status == old(status) && currentEntry == old(currentEntry)
      ensures targetMinutes == old(targetMinutes) && entries == old(entries)
      ensures old(Valid()) ==> Valid()
    {
      if status == Running {
        elapsedSeconds := elapsedSeconds + 1;
      }
    }

    method SetTargetMinutes(minutes: int)
      modifies this
      ensures targetMinutes == minutes
      ensures status == old(status) && currentEntry == old(currentEntry)
      ensures elapsedSeconds == old(elapsedSeconds) && entries == old(entries)
      ensures old(Valid()) ==> Valid()
    {
      targetMinutes := minutes;
    }

    /** The logged entries started at or after local midnight `dayStart` (there is no upper bound). */
    function GetTodaysEntries(dayStart: int): (r: seq<TimeEntry>)
      reads this
      ensures forall e :: e in r <==> e in entries && e.startTime >= dayStart
      ensures forall e :: multiset(r)[e] == if e.startTime >= dayStart then multiset(entries)[e] else 0
      ensures IsSubsequence(r, entries)
    {
      FilterSpec(entries, StartedSince(dayStart));
      Filter(entries, StartedSince(dayStart))
    }

    /** The seconds logged today. */
    function TotalTimeToday(dayStart: int): int
      reads this
    {
      SumDurations(GetTodaysEntries(dayStart))
    }

    /** The seconds logged today in one category. */
    function GetTimeByCategory(category: TaskCategory, dayStart: int): int
      reads this
    {
      SumDurations(Filter(GetTodaysEntries(dayStart), InCategory(category)))
    }
  }

  /** In every reachable state a category's time today is between zero and the day's total. */
  lemma CategoryTimeBounded(store: TimerStore, category: TaskCategory, dayStart: int)
    requires store.Valid()
    ensures 0 <= store.GetTimeByCategory(category, dayStart) <= store.TotalTimeToday(dayStart)
  {
    FilterNonNegative(store.entries, StartedSince(dayStart));
    SumDurationsFilter(store.GetTodaysEntries(dayStart), InCategory(category));
  }

  /** The five categories' times add up to the day's total. */
  lemma CategoryTimesAddUp(store: TimerStore, dayStart: int)
    ensures store.GetTimeByCategory(Work, dayStart) + store.GetTimeByCategory(Personal, dayStart)
          + store.GetTimeByCategory(Social, dayStart) + store.GetTimeByCategory(Web3, dayStart)
          + store.GetTimeByCategory(Health, dayStart) == store.TotalTimeToday(dayStart)
  {
    CategorySumsAddUp(store.GetTodaysEntries(dayStart));
  }
}
