/**
 * The entry form: which duration a submission carries and whether it is
 * accepted (app.py:74, 99-101, 116, 120-132).
 */
module EntryForm {

  /** The manual input widget enforces a minimum of one minute (app.py:116). */
  type WholeMinutes = m: int | m >= 1 witness 1

  /** The radio choice between the timer and manual entry (app.py:72). */
  datatype InputMode = TimerMode | Manual(minutes: WholeMinutes)

  /** The three text inputs (app.py:64-68). */
  datatype Form = Form(name: string, requestedDept: string, task: string)

  /**
   * The row handed to the store (app.py:127-132). `durationMin` is in
   * hundredths of a minute, so 45 manual minutes is 4500 and a timer run of
   * 2.08 minutes is 208.
   */
  datatype WorkLogRow = WorkLogRow(name: string, requestedDept: string, task: string, durationMin: int)

  datatype Rejection = MissingField | ZeroDuration
  datatype Decision = Rejected(reason: Rejection) | Accepted(row: WorkLogRow)

  /**
   * `duration_min` as the page computes it before the submit button:
   * 0 by default (app.py:74), the stopped timer's value when positive
   * (app.py:99-101), the manual minutes otherwise (app.py:116).
   */
  function SelectDuration(mode: InputMode, isRunning: bool, elapsed: int): (d: int)
    ensures d >= 0
    ensures mode.Manual? ==> d == 100 * mode.minutes
    ensures mode.TimerMode? ==> d == 0 || (d == elapsed && !isRunning)
    ensures d > 0 <==> mode.Manual? || (!isRunning && elapsed > 0)
  {
    match mode
    case Manual(m) => 100 * m
    case TimerMode => if !isRunning && elapsed > 0 then elapsed else 0
  }

  /** `not x` on a text input rejects the empty string only (app.py:121). */
  predicate AnyFieldEmpty(f: Form) {
    f.name == "" || f.requestedDept == "" || f.task == ""
  }

  /** The submit decision (app.py:121-132). */
  function Decide(f: Form, duration: int, isRunning: bool): (r: Decision)
    ensures r == Rejected(MissingField) <==> AnyFieldEmpty(f)
    ensures r == Rejected(ZeroDuration) <==> !AnyFieldEmpty(f) && duration <= 0 && !isRunning
    ensures r.Accepted? <==> !AnyFieldEmpty(f) && (duration > 0 || isRunning)
    ensures r.Accepted? ==> r.row == WorkLogRow(f.name, f.requestedDept, f.task, duration)
  {
    if AnyFieldEmpty(f) then Rejected(MissingField)
    else if duration <= 0 && !isRunning then Rejected(ZeroDuration)
    else Accepted(WorkLogRow(f.name, f.requestedDept, f.task, duration))
  }

  /** A missing field is reported even when the duration is also zero. */
  lemma FieldsCheckedBeforeDuration(f: Form, duration: int, isRunning: bool)
    requires AnyFieldEmpty(f) && duration <= 0 && !isRunning
    ensures Decide(f, duration, isRunning) == Rejected(MissingField)
  {
  }

  /** Only the empty string counts as missing: a blank-looking field passes. */
  lemma WhitespaceFieldAccepted()
    ensures Decide(Form(" ", "Sales", "Report"), 4500, false).Accepted?
  {
  }

  /**
   * Taken alone, the decision lets a zero duration through while the timer
   * runs (app.py:123); the page never reaches it in that state with a zero
   * duration (see the `CompleteRow` postcondition of Session.Pass).
   */
  lemma RunningTimerSkipsDurationCheck(f: Form)
    requires !AnyFieldEmpty(f)
    ensures Decide(f, 0, true) == Accepted(WorkLogRow(f.name, f.requestedDept, f.task, 0))
  {
  }
}
