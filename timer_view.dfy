/**
 * The arithmetic of the timer screen: the `mm:ss` display, the remaining
 * seconds shown on it, and the effect that stops a session once its
 * target is reached and has the mascot celebrate.
 */
module TimerView {
  import opened Wrappers
  import opened Text
  import opened Types
  import Timers
  import App

  /** `n.toString().padStart(2, '0')` */
  function TwoDigits(n: nat): (r: string)
    ensures AllDigits(r) && DigitsValue(r) == n
    ensures |r| == if |DecimalString(n)| >= 2 then |DecimalString(n)| else 2
    ensures n < 100 ==> |r| == 2
  {
    var d := DecimalString(n);
    var r := PadStart(d, 2, '0');
    var zeros := r[..|r| - |d|];
    assert r == zeros + d;
    DigitsValueLeadingZeros(zeros, d);
    r
  }

  /**
   * `formatTime`: whole minutes, a colon, and the seconds within the
   * minute, each printed in decimal and zero-padded to two digits. The
   * seconds always take exactly two digits; the minutes at least two,
   * and more when they need them, so padding never cuts a digit.
   */
  function FormatTime(seconds: nat): (r: string)
    ensures |r| >= 5 && r[|r| - 3] == ':'
    ensures AllDigits(r[|r| - 2..]) && DigitsValue(r[|r| - 2..]) == seconds % 60
    ensures AllDigits(r[..|r| - 3]) && DigitsValue(r[..|r| - 3]) == seconds / 60
    ensures |r[..|r| - 3]| == if |DecimalString(seconds / 60)| >= 2 then |DecimalString(seconds / 60)| else 2
  {
    var minutes, rest := seconds / 60, seconds % 60;
    assert rest < 100;
    ClockText(TwoDigits(minutes), TwoDigits(rest))
  }

  /** `${mins}:${secs}` for a two-digit seconds part: both parts read back from either side of the colon. */
  function ClockText(mins: string, secs: string): (r: string)
    requires |secs| == 2 && AllDigits(mins) && AllDigits(secs)
    ensures |r| == |mins| + 3 && r[|r| - 3] == ':'
    ensures AllDigits(r[|r| - 2..]) && DigitsValue(r[|r| - 2..]) == DigitsValue(secs)
    ensures AllDigits(r[..|r| - 3]) && DigitsValue(r[..|r| - 3]) == DigitsValue(mins) && |r[..|r| - 3]| == |mins|
  {
    var r := mins + ":" + secs;
    assert r[|r| - 2..] == secs;
    assert r[..|r| - 3] == mins;
    r
  }

  /** Under a hundred minutes the display is exactly `mm:ss`. */
  lemma FormatTimeShort(seconds: nat)
    requires seconds < 6000
    ensures |FormatTime(seconds)| == 5 && FormatTime(seconds)[2] == ':'
  {
    assert seconds / 60 < 100;
    assert |DecimalString(seconds / 60)| <= 2;
  }

  /** `Math.max(0, targetMinutes * 60 - elapsedSeconds)` */
  function RemainingSeconds(targetMinutes: int, elapsedSeconds: int): (r: int)
    ensures r >= 0
    ensures elapsedSeconds >= targetMinutes * 60 ==> r == 0
    ensures elapsedSeconds < targetMinutes * 60 ==> r + elapsedSeconds == targetMinutes * 60
  {
    if targetMinutes * 60 - elapsedSeconds > 0 then targetMinutes * 60 - elapsedSeconds else 0
  }

  /** The completion effect fires for a running session whose elapsed time has reached the target. */
  predicate ShouldAutoStop(status: TimerStatus, elapsedSeconds: int, targetMinutes: int) {
    status == Running && elapsedSeconds >= targetMinutes * 60
  }

  /** A running session is stopped exactly when no time is left on the display. */
  lemma AutoStopWhenNothingLeft(elapsedSeconds: int, targetMinutes: int)
    ensures ShouldAutoStop(Running, elapsedSeconds, targetMinutes) <==> RemainingSeconds(targetMinutes, elapsedSeconds) == 0
  {
  }

  /** What the mascot says when a session reaches its target. */
  function AutoStopMessage(targetMinutes: int): string {
    IntString(targetMinutes) + " minutes CRUSHED! Take a break, champion!"
  }

  /**
   * The completion effect: once a running session has reached its target,
   * the session is stopped (and logged) and the mascot celebrates with the
   * target in its message; otherwise nothing changes.
   */
  method CheckCompletion(timer: Timers.TimerStore, app: App.AppStore, random: real, now: int)
    requires 0.0 <= random < 1.0
    modifies timer, app
    ensures !ShouldAutoStop(old(timer.status), old(timer.elapsedSeconds), old(timer.targetMinutes)) ==>
      timer.status == old(timer.status) && timer.entries == old(timer.entries)
      && timer.elapsedSeconds == old(timer.elapsedSeconds) && timer.currentEntry == old(timer.currentEntry)
      && app.mascot == old(app.mascot)
    ensures ShouldAutoStop(old(timer.status), old(timer.elapsedSeconds), old(timer.targetMinutes)) ==>
      app.mascot == MascotState(Celebrating, AutoStopMessage(old(timer.targetMinutes)), now)
    ensures ShouldAutoStop(old(timer.status), old(timer.elapsedSeconds), old(timer.targetMinutes)) && old(timer.currentEntry).Some? ==>
      timer.status == Idle && timer.currentEntry.None? && timer.elapsedSeconds == 0
      && timer.entries == old(timer.entries) + [Timers.Closed(old(timer.currentEntry).value, now, old(timer.elapsedSeconds))]
    ensures old(timer.currentEntry).None? ==>
      timer.status == old(timer.status) && timer.entries == old(timer.entries)
      && timer.elapsedSeconds == old(timer.elapsedSeconds) && timer.currentEntry.None?
    ensures timer.targetMinutes == old(timer.targetMinutes)
    ensures old(timer.Valid()) ==> timer.Valid()
    ensures app.currentView == old(app.currentView) && app.notifications == old(app.notifications)
    ensures app.userName == old(app.userName)
  {
    if ShouldAutoStop(timer.status, timer.elapsedSeconds, timer.targetMinutes) {
      var message := AutoStopMessage(timer.targetMinutes);
      timer.StopTimer(now);
      app.SetMascotMood(Celebrating, Some(message), random, now);
    }
  }
}
