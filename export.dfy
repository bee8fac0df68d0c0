/** The administrator's spreadsheet download (app.py:144-166). */
module Export {
  import opened Wrappers
  import opened EntryForm

  /** A failed fetch, nothing to export, or a file built from all fetched rows. */
  datatype ExportOutcome = FetchFailed | NoData | Download(rows: seq<WorkLogRow>)

  /**
   * `fetched` is the store's answer to the select of app.py:146: `None` when
   * the call raised. An empty table produces no file (app.py:149-150).
   */
  function ExportResult(fetched: Option<seq<WorkLogRow>>): (r: ExportOutcome)
    ensures r == FetchFailed <==> fetched == None
    ensures r == NoData <==> fetched == Some([])
    ensures r.Download? ==> |r.rows| > 0 && Some(r.rows) == fetched
  {
    match fetched
    case None => FetchFailed
    case Some(rows) => if |rows| == 0 then NoData else Download(rows)
  }
}
