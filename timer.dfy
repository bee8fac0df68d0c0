/**
 * The stopwatch kept in the page's session state (app.py:49-54, 84-113).
 *
 * Time is abstracted to whole seconds: `now` stands for `time.time()`.
 * The stored elapsed time is kept in hundredths of a minute, the precision
 * of `round(seconds / 60, 2)`.
 */
module Timer {
  import opened Wrappers

  /** The three session fields `timer_start`, `is_running` and `elapsed_time`. */
  datatype TimerState = TimerState(timerStart: Option<int>, isRunning: bool, elapsedTime: int)

  /** The state a fresh session starts in (app.py:49-54). */
  const Initial: TimerState := TimerState(None, false, 0)

  /**
   * The session invariant: a start time is recorded exactly while the timer
   * runs, and no finished duration is held while it runs.
   */
  predicate Consistent(s: TimerState) {
    && (s.isRunning <==> s.timerStart.Some?)
    && (s.isRunning ==> s.elapsedTime == 0)
  }

  /**
   * `round(seconds / 60, 2)` expressed in hundredths of a minute.
   * For whole seconds the exact value 5*seconds/3 is never halfway between
   * two integers, so the result is THE nearest integer and the rounding
   * mode (half to even) never comes into play.
   */
  function CentiMinutes(seconds: int): (c: int)
    ensures 3 * c - 1 <= 5 * seconds <= 3 * c + 1
    ensures seconds >= 0 ==> c >= 0
  {
    (5 * seconds + 1) / 3
  }

  /** The nearest-integer property pins the converted value down uniquely. */
  lemma CentiMinutesUnique(seconds: int, c: int)
    requires 3 * c - 1 <= 5 * seconds <= 3 * c + 1
    ensures c == CentiMinutes(seconds)
  {
  }

  /** A later stop never yields less time. */
  lemma CentiMinutesMonotone(a: int, b: int)
    requires a <= b
    ensures CentiMinutes(a) <= CentiMinutes(b)
  {
  }

  /** Minutes and leftover seconds of a running timer's display. */
  datatype Clock = Clock(minutes: int, seconds: int)

  /**
   * `int(elapsed // 60)` and `int(elapsed % 60)` (app.py:86). Python's
   * floor division by a positive divisor agrees with Dafny's, so this holds
   * for negative elapsed times too.
   */
  function MinSec(elapsed: int): (r: Clock)
    ensures 0 <= r.seconds < 60
    ensures 60 * r.minutes + r.seconds == elapsed
  {
    Clock(elapsed / 60, elapsed % 60)
  }

  /** The minutes/seconds split is the only one with seconds in [0, 60). */
  lemma MinSecUnique(elapsed: int, m: int, sec: int)
    requires 0 <= sec < 60 && 60 * m + sec == elapsed
    ensures MinSec(elapsed) == Clock(m, sec)
  {
  }

  /** What the timer metric shows on a timer-mode pass (app.py:84-86, 99-103). */
  datatype Metric = Live(clock: Clock) | Final(elapsed: int) | Zero

  function ShownMetric(s: TimerState, now: int): (m: Metric)
    requires Consistent(s)
    ensures m.Live? <==> s.isRunning
    ensures m.Live? ==> 60 * m.clock.minutes + m.clock.seconds == now - s.timerStart.value
    ensures m.Live? ==> 0 <= m.clock.seconds < 60
    ensures m.Final? <==> !s.isRunning && s.elapsedTime > 0
    ensures m.Final? ==> m.elapsed == s.elapsedTime
  {
    if s.isRunning then Live(MinSec(now - s.timerStart.value))
    else if s.elapsedTime > 0 then Final(s.elapsedTime)
    else Zero
  }

  /** The start button (app.py:105-108), offered only when not running. */
  function AfterStart(s: TimerState, now: int): (t: TimerState)
    requires !s.isRunning
    ensures Consistent(t)
  {
    TimerState(Some(now), true, 0)
  }

  /** The stop button (app.py:88-92), offered only while running. */
  function AfterStop(s: TimerState, now: int): (t: TimerState)
    requires Consistent(s) && s.isRunning
    ensures Consistent(t)
  {
    TimerState(None, false, CentiMinutes(now - s.timerStart.value))
  }

  /** The reset button (app.py:112), also the clearing after a stored entry (app.py:136). */
  function AfterReset(s: TimerState): (t: TimerState)
    requires Consistent(s)
    ensures Consistent(t)
  {
    s.(elapsedTime := 0)
  }

  /** Starting and then stopping records the run's length and returns to a stopped timer. */
  lemma StartThenStop(s: TimerState, start: int, stop: int)
    requires !s.isRunning
    ensures var t := AfterStop(AfterStart(s, start), stop);
      && !t.isRunning && t.timerStart == None
      && t.elapsedTime == CentiMinutes(stop - start)
      && (start <= stop ==> t.elapsedTime >= 0)
  {
  }

  /** For one run, a later stop records at least as much as an earlier one would have. */
  lemma StopMonotone(s: TimerState, early: int, late: int)
    requires Consistent(s) && s.isRunning && early <= late
    ensures AfterStop(s, early).elapsedTime <= AfterStop(s, late).elapsedTime
  {
  }

  /** Reset clears the recorded time and touches nothing else. */
  lemma ResetOnlyClears(s: TimerState)
    requires Consistent(s)
    ensures AfterReset(s).elapsedTime == 0
    ensures AfterReset(s).isRunning == s.isRunning && AfterReset(s).timerStart == s.timerStart
    ensures AfterReset(AfterReset(s)) == AfterReset(s)
  {
  }

  /** Started at t=0 and stopped at t=125 s, the timer holds 2.08 minutes. */
  lemma TwoMinutesFiveSeconds()
    ensures AfterStop(AfterStart(Initial, 0), 125).elapsedTime == 208
  {
  }
}
