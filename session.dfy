/**
 * One pass of the page over the session state (app.py:49-138, 144-166):
 * the stopwatch buttons, the submit button and the export button, in the
 * order the script reaches them. Each user action reruns the script from
 * the top, and only the three session fields survive between passes.
 */
module Session {
  import opened Wrappers
  import opened Timer
  import opened EntryForm
  import opened Export

  /** The one button, if any, that triggered this pass. */
  datatype Click = NoClick | StartClick | StopClick | ResetClick | SubmitClick | ExportClick

  /**
   * Everything a pass reads besides the session fields: the widgets, the
   * clock, and the answers of the store (whether the insert of app.py:133
   * succeeds, and what the select of app.py:146 returns).
   */
  datatype Event = Event(
    mode: InputMode, form: Form, click: Click, now: int,
    insertOk: bool, fetched: Option<seq<WorkLogRow>>)

  /** How a pass ends. `Rerun` is a pass cut short by `st.rerun()`. */
  datatype Outcome =
    | Rerun
    | Idle
    | Warned(reason: Rejection)
    | Stored(row: WorkLogRow)
    | StoreFailed(row: WorkLogRow)
    | Exported(result: ExportOutcome)

  datatype PassResult = PassResult(state: TimerState, outcome: Outcome)

  /** What every entry written to the store satisfies. */
  predicate CompleteRow(row: WorkLogRow) {
    row.name != "" && row.requestedDept != "" && row.task != "" && row.durationMin > 0
  }

  /** The submit handler (app.py:120-138), reached when no rerun came first. */
  function Submission(s: TimerState, ev: Event): (r: PassResult)
    requires Consistent(s)
    ensures Consistent(r.state)
    ensures r.outcome.Warned? || r.outcome.Stored? || r.outcome.StoreFailed?
    ensures r.outcome.Stored? <==> ev.insertOk && Decide(ev.form, SelectDuration(ev.mode, s.isRunning, s.elapsedTime), s.isRunning).Accepted?
    ensures r.outcome.Stored? ==> r.state == AfterReset(s)
    ensures !r.outcome.Stored? ==> r.state == s
    ensures r.outcome.Warned? ==>
      Decide(ev.form, SelectDuration(ev.mode, s.isRunning, s.elapsedTime), s.isRunning) == Rejected(r.outcome.reason)
    ensures r.outcome.Stored? || r.outcome.StoreFailed? ==>
      Decide(ev.form, SelectDuration(ev.mode, s.isRunning, s.elapsedTime), s.isRunning) == Accepted(r.outcome.row)
  {
    match Decide(ev.form, SelectDuration(ev.mode, s.isRunning, s.elapsedTime), s.isRunning)
    case Rejected(why) => PassResult(s, Warned(why))
    case Accepted(row) =>
      if ev.insertOk then PassResult(AfterReset(s), Stored(row))
      else PassResult(s, StoreFailed(row))
  }

  /**
   * One pass of the script. In timer mode while running, the pass always
   * ends in `st.rerun()` (app.py:93 or 97) before the submit and export
   * buttons are handled. The timer buttons exist only in timer mode, start
   * and reset only while stopped (app.py:98-113).
   */
  function Pass(s: TimerState, ev: Event): (r: PassResult)
    requires Consistent(s)
    ensures Consistent(r.state)
    ensures r.outcome.Stored? ==> CompleteRow(r.outcome.row)
  {
    if ev.mode.TimerMode? && s.isRunning then
      PassResult(if ev.click == StopClick then AfterStop(s, ev.now) else s, Rerun)
    else if ev.mode.TimerMode? && ev.click == StartClick then
      PassResult(AfterStart(s, ev.now), Rerun)
    else if ev.mode.TimerMode? && ev.click == ResetClick then
      PassResult(AfterReset(s), Rerun)
    else if ev.click == SubmitClick then
      Submission(s, ev)
    else if ev.click == ExportClick then
      PassResult(s, Exported(ExportResult(ev.fetched)))
    else
      PassResult(s, Idle)
  }

  /** The session state after a sequence of passes, with the rows stored on the way. */
  datatype History = History(state: TimerState, stored: seq<WorkLogRow>)

  function Run(s: TimerState, evs: seq<Event>): (h: History)
    requires Consistent(s)
    ensures Consistent(h.state)
    ensures |h.stored| <= |evs|
    ensures forall i :: 0 <= i < |h.stored| ==> CompleteRow(h.stored[i])
    decreases |evs|
  {
    if evs == [] then History(s, [])
    else
      var p := Pass(s, evs[0]);
      var rest := Run(p.state, evs[1..]);
      History(rest.state, (if p.outcome.Stored? then [p.outcome.row] else []) + rest.stored)
  }

  /** Running a session in two halves is running it whole: only the session fields carry over. */
  lemma {:induction false} RunAppend(s: TimerState, a: seq<Event>, b: seq<Event>)
    requires Consistent(s)
    ensures var h1 := Run(s, a); var h2 := Run(h1.state, b);
      Run(s, a + b) == History(h2.state, h1.stored + h2.stored)
    decreases |a|
  {
    if a == [] {
      assert a + b == b;
    } else {
      assert (a + b)[0] == a[0];
      assert (a + b)[1..] == a[1..] + b;
      RunAppend(Pass(s, a[0]).state, a[1..], b);
    }
  }

  /** While the timer runs in timer mode, every pass ends in a rerun and only stop changes the state. */
  lemma RunningTimerPass(s: TimerState, ev: Event)
    requires Consistent(s) && s.isRunning && ev.mode.TimerMode?
    ensures Pass(s, ev).outcome == Rerun
    ensures Pass(s, ev).state == if ev.click == StopClick then AfterStop(s, ev.now) else s
  {
  }

  /** The reset button clears the time only in timer mode while stopped. */
  lemma ResetClickPass(s: TimerState, ev: Event)
    requires Consistent(s) && ev.click == ResetClick
    ensures Pass(s, ev).state == if ev.mode.TimerMode? && !s.isRunning then AfterReset(s) else s
  {
  }

  /**
   * A submit clears the recorded time exactly when the insert succeeds;
   * a rejected entry or a store error leaves the session untouched.
   */
  lemma SubmitClearsOnlyOnInsert(s: TimerState, ev: Event)
    requires Consistent(s) && ev.click == SubmitClick && !(ev.mode.TimerMode? && s.isRunning)
    ensures var r := Pass(s, ev);
      && (r.outcome.Stored? <==> ev.insertOk && !AnyFieldEmpty(ev.form)
                                  && SelectDuration(ev.mode, s.isRunning, s.elapsedTime) > 0)
      && (r.outcome.Stored? ==> r.state == AfterReset(s))
      && (!r.outcome.Stored? ==> r.state == s)
  {
  }

  /** A manual entry for Kim is stored verbatim, 45 minutes as 4500 hundredths. */
  lemma ManualEntryStored()
    ensures Pass(Initial, Event(Manual(45), Form("Kim", "Sales", "Report"), SubmitClick, 0, true, None))
         == PassResult(Initial, Stored(WorkLogRow("Kim", "Sales", "Report", 4500)))
  {
  }

  /** Start at 0 s, stop at 125 s, submit: one row of 2.08 minutes, and the timer is cleared. */
  lemma TimedEntryStored(f: Form)
    requires !AnyFieldEmpty(f)
    ensures Run(Initial, [
              Event(TimerMode, f, StartClick, 0, true, None),
              Event(TimerMode, f, StopClick, 125, true, None),
              Event(TimerMode, f, SubmitClick, 130, true, None)])
         == History(Initial, [WorkLogRow(f.name, f.requestedDept, f.task, 208)])
  {
    var evs := [
      Event(TimerMode, f, StartClick, 0, true, None),
      Event(TimerMode, f, StopClick, 125, true, None),
      Event(TimerMode, f, SubmitClick, 130, true, None)];
    var s1 := AfterStart(Initial, 0);
    var s2 := AfterStop(s1, 125);
    assert s2 == TimerState(None, false, 208);
    assert Pass(Initial, evs[0]) == PassResult(s1, Rerun);
    assert Pass(s1, evs[1]) == PassResult(s2, Rerun);
    assert Pass(s2, evs[2]) == PassResult(Initial, Stored(WorkLogRow(f.name, f.requestedDept, f.task, 208)));
    var done := Stored(WorkLogRow(f.name, f.requestedDept, f.task, 208));
    assert Run(Initial, []) == History(Initial, []);
    assert Run(s2, evs[2..]) == History(Initial, [done.row]);
    assert Run(s1, evs[1..]) == History(Initial, [done.row]);
  }

  /** The fields of `st.session_state` that the page keeps across passes. */
  class SessionState {
    var timerStart: Option<int>
    var isRunning: bool
    var elapsedTime: int

    function State(): TimerState
      reads this
    {
      TimerState(timerStart, isRunning, elapsedTime)
    }

    predicate Valid()
      reads this
    {
      Consistent(State())
    }

    /** First access to the session (app.py:49-54). */
    constructor ()
      ensures Valid()
      ensures timerStart == None && !isRunning && elapsedTime == 0
    {
      timerStart := None;
      isRunning := false;
      elapsedTime := 0;
    }

    /** The start button (app.py:105-108). */
    method Start(now: int)
      requires Valid() && !isRunning
      modifies this
      ensures Valid()
      ensures timerStart == Some(now) && isRunning && elapsedTime == 0
      ensures State() == AfterStart(old(State()), now)
    {
      timerStart := Some(now);
      isRunning := true;
      elapsedTime := 0;
    }

    /** The stop button (app.py:89-92). */
    method Stop(now: int)
      requires Valid() && isRunning
      modifies this
      ensures Valid()
      ensures timerStart == None && !isRunning
      ensures elapsedTime == CentiMinutes(now - old(timerStart).value)
      ensures old(timerStart).value <= now ==> elapsedTime >= 0
      ensures State() == AfterStop(old(State()), now)
    {
      var finalElapsed := now - timerStart.value;
      elapsedTime := CentiMinutes(finalElapsed);
      isRunning := false;
      timerStart := None;
    }

    /** The reset button (app.py:112) and the clearing after a stored entry (app.py:136). */
    method Reset()
      requires Valid()
      modifies this
      ensures Valid()
      ensures elapsedTime == 0 && isRunning == old(isRunning) && timerStart == old(timerStart)
      ensures State() == AfterReset(old(State()))
    {
      elapsedTime := 0;
    }

    /** One pass of the script, following its statements in order. */
    method Interact(ev: Event) returns (out: Outcome)
      requires Valid()
      modifies this
      ensures Valid()
      ensures PassResult(State(), out) == Pass(old(State()), ev)
    {
      var durationMin := 0;
      match ev.mode {
        case TimerMode =>
          if isRunning {
            if ev.click == StopClick {
              Stop(ev.now);
            }
            return Rerun;
          }
          if elapsedTime > 0 {
            durationMin := elapsedTime;
          }
          if ev.click == StartClick {
            Start(ev.now);
            return Rerun;
          }
          if ev.click == ResetClick {
            Reset();
            return Rerun;
          }
        case Manual(minutes) =>
          durationMin := 100 * minutes;
      }

      if ev.click == SubmitClick {
        var decision := Decide(ev.form, durationMin, isRunning);
        match decision {
          case Rejected(why) =>
            out := Warned(why);
          case Accepted(row) =>
            if ev.insertOk {
              Reset();
              out := Stored(row);
            } else {
              out := StoreFailed(row);
            }
        }
        return;
      }

      if ev.click == ExportClick {
        out := Exported(ExportResult(ev.fetched));
        return;
      }
      out := Idle;
    }
  }
}
