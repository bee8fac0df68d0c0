# Department work-log tracker: timer and submit model

A Dafny model of the logic in `app.py` of a small data-entry page on which
team members log the minutes they spent on work requested by other
departments. The page keeps a stopwatch in its per-user session state
(`timer_start`, `is_running`, `elapsed_time`). Each entry's duration comes
either from the stopwatch or from a manual minute count. The page checks the
entry, writes it to the `department_work_log` table, and lets an administrator
download every row as a spreadsheet.

Modules:

- `Wrappers` (wrappers.dfy): `Option`.
- `Timer` (timer.dfy): the session fields as a value `TimerState`, the
  invariant `Consistent` (a start time is recorded exactly while running, and
  no finished duration is held while running), the start/stop/reset
  transitions, the seconds-to-minutes rounding, and the minutes/seconds split.
- `EntryForm` (entry_form.dfy): duration selection and the submit decision.
- `Export` (export.dfy): the export short-circuit.
- `Session` (session.dfy): the class `SessionState` holding the three session
  fields, with one method per timer button and `Interact` for one full pass of
  the script; the pure specification `Pass` of such a pass; and `Run` for a
  sequence of passes.

Units: `now` is whole seconds, standing in for `time.time()`. `elapsed_time`
and `duration_min` are in hundredths of a minute. So `round(125 / 60, 2) = 2.08`
is 208, and 45 manual minutes are 4500. For whole seconds, `5s/3` is never
exactly halfway between two integers. So `round` with two decimals has one
nearest value, and Python's half-to-even rule never applies.

The page is a script that Streamlit reruns from the top on every click. While
the stopwatch runs in timer mode, every pass ends in `st.rerun()` (app.py:93
or app.py:97) before the submit and export handlers. So the condition at
app.py:123 can accept a zero duration while running, but the page never
stores one. When the timer runs in manual mode, the duration is the manual
value, which is at least one minute. `Session.Pass` proves that every stored
row has non-empty fields and a positive duration.

`not name` (app.py:121) rejects only the empty string, so a field holding
only whitespace is accepted (`EntryForm.WhitespaceFieldAccepted`).

## Model

| member | source | states |
|---|---|---|
| `Timer.CentiMinutes` | app.py:89-90 | the stored time is the integer nearest to seconds/60 in hundredths (`3c-1 <= 5s <= 3c+1`), non-negative for a non-negative run |
| `Timer.CentiMinutesUnique` | app.py:90 | the nearest-hundredth value is unique, so no tie-breaking rule is involved |
| `Timer.CentiMinutesMonotone` | app.py:89-90 | more elapsed seconds never give fewer stored hundredths |
| `Timer.MinSec` | app.py:85-86 | the live display splits elapsed seconds into minutes and seconds with `0 <= sec < 60` and `60*min + sec == elapsed` |
| `Timer.MinSecUnique` | app.py:86 | that split is the only one with seconds in [0, 60) |
| `Timer.ShownMetric` | app.py:84-103 | the metric is live exactly while running, and shows now minus start split into minutes and seconds in [0, 60); it shows the final time exactly when stopped with a positive value; otherwise it shows zero |
| `Timer.AfterStart` | app.py:105-108 | starting gives a consistent state |
| `Timer.AfterStop` | app.py:88-92 | stopping a running timer gives a consistent state |
| `Timer.AfterReset` | app.py:111-112 | reset keeps the state consistent |
| `Timer.StartThenStop` | app.py:88-108 | start then stop leaves the timer stopped with no start time, holding the run's length converted to hundredths, and that length is non-negative when the stop is not before the start |
| `Timer.StopMonotone` | app.py:88-92 | for one run, a later stop records at least as much as an earlier stop would have |
| `Timer.ResetOnlyClears` | app.py:111-112 | reset zeroes the elapsed time, leaves running flag and start time alone, and is idempotent |
| `Timer.TwoMinutesFiveSeconds` | app.py:89-90 | start at 0 s and stop at 125 s store 2.08 minutes |
| `EntryForm.SelectDuration` | app.py:98-116 | the submitted duration is positive exactly in manual mode or with a stopped timer holding a positive time; in timer mode it is that stored time or the default 0 of app.py:74; in manual mode it is the minutes given, at least one |
| `EntryForm.Decide` | app.py:120-132 | a missing field is reported exactly when a field is empty, whatever the duration; a zero duration is reported exactly when all fields are filled, the duration is <= 0 and the timer is stopped; otherwise the row holds the four inputs verbatim |
| `EntryForm.FieldsCheckedBeforeDuration` | app.py:121-124 | when both checks fail, the missing field is what is reported |
| `EntryForm.WhitespaceFieldAccepted` | app.py:121 | a field holding only a space is not missing |
| `EntryForm.RunningTimerSkipsDurationCheck` | app.py:123 | taken alone, the decision accepts a zero duration while the timer runs |
| `Export.ExportResult` | app.py:144-166 | a failed fetch is an error, an empty table produces no file, and otherwise the file carries exactly the fetched rows |
| `Session.Pass` | app.py:84-166 | every pass keeps the session invariant, and every row it stores has non-empty name, department and task and a positive duration |
| `Session.Submission` | app.py:120-138 | the submit handler warns, stores or reports a store error; a stored or failed row is the one the decision accepted, a warning carries the decision's reason; the elapsed time is cleared exactly when the row is stored, otherwise the session is unchanged, and the invariant is kept |
| `Session.Run` | app.py:49-138 | over any sequence of passes the invariant holds, at most one row is stored per pass, and every stored row is complete |
| `Session.RunAppend` | app.py:49-54 | a session run in two halves equals the whole run, because only the session fields carry over between passes |
| `Session.RunningTimerPass` | app.py:84-97 | while running in timer mode, every pass ends in a rerun, and only the stop button changes the state |
| `Session.ResetClickPass` | app.py:98-113 | the reset button takes effect only in timer mode with the timer stopped |
| `Session.SubmitClearsOnlyOnInsert` | app.py:120-138 | a submit stores a row exactly when the fields are filled, the duration is positive and the insert succeeds; only then is the elapsed time cleared; a warning or a store error leaves the session unchanged |
| `Session.ManualEntryStored` | app.py:116-136 | submitting Kim/Sales/Report with 45 manual minutes stores exactly that row |
| `Session.TimedEntryStored` | app.py:88-136 | start at 0 s, stop at 125 s, then submit: stores one row of 2.08 minutes and returns the timer to its initial state |
| `Session.SessionState.constructor` | app.py:49-54 | a new session has no start time, is not running, and holds 0 |
| `Session.SessionState.Start` | app.py:105-109 | start records `now`, sets running and clears the elapsed time |
| `Session.SessionState.Stop` | app.py:88-93 | stop clears running and the start time, and stores the rounded run length, non-negative when now is not before the start |
| `Session.SessionState.Reset` | app.py:111-113 | reset zeroes the elapsed time and changes nothing else |
| `Session.SessionState.Interact` | app.py:74-166 | one pass of the script over the session fields, following its statements in order, agrees with `Pass` on the new state and the outcome |

## Left out

- Streamlit page configuration, CSS, widget rendering and the texts shown (app.py:9-33, 57-72). Only the values the widgets return reach the model.
- The one-second `time.sleep` before the refresh rerun (app.py:96). Only its effect is modelled: the pass ends without reaching later handlers.
- Supabase client creation and secrets loading (app.py:36-46). This is configuration I/O.
- The insert and select calls (app.py:133, 146). These are network I/O. Whether the insert succeeds and what the select returns are inputs of a pass. The raw error message is not modelled. Neither are the server-assigned `created_at` column and the descending sort.
- pandas and xlsxwriter rendering, the sheet name, the MIME type, and the timestamped file name (app.py:147-164). These are foreign libraries, binary output and wall-clock time. The model states only which rows the file is built from.
- `Timer.CentiMinutes`: does not model floating-point time. `time.time()` is abstracted to whole seconds, and `round(x / 60, 2)` to the exact nearest hundredth. Sub-second runs, which Python can record as 0.01 minutes, are not represented.
- `EntryForm.SelectDuration`: the manual value's minimum of one minute is the widget's own check (app.py:116). It is carried by the type `WholeMinutes`, not re-validated.
