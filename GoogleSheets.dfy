/** `services/google_sheets.py`: the row appended to the first worksheet for each new request.
    Authorisation and the gspread calls are a single success flag here. */
module GoogleSheets {
  import opened Models

  /** The row list: id, user id, username or `N/A`, the survey answers, comment or `Нет`, and the
      creation time. */
  function SheetRow(r: Request): (row: seq<Cell>)
    ensures |row| == 11
  {
    var f := r.fields;
    [IntCell(r.id), IntCell(f.userId), TextCell(OrText(f.username, "N/A")),
     TextCell(f.destination), TextCell(f.departureDate), IntCell(f.nights),
     IntCell(f.adults), IntCell(f.children), IntCell(f.budget),
     TextCell(OrText(f.comment, "Нет")), TimeCell(r.createdAt)]
  }

  /** `sheet1` of the configured spreadsheet. */
  class Worksheet {
    var rows: seq<seq<Cell>>

    constructor ()
      ensures rows == []
    {
      rows := [];
    }
  }

  /** `_sync_save_to_sheets`: with the service reachable exactly one row is appended; on any
      failure nothing is appended and the error goes back to the caller (`ok` false). */
  method SaveToSheets(sheet: Worksheet, r: Request, reachable: bool) returns (ok: bool)
    modifies sheet
    ensures ok == reachable
    ensures ok ==> sheet.rows == old(sheet.rows) + [SheetRow(r)]
    ensures !ok ==> sheet.rows == old(sheet.rows)
  {
    if !reachable {
      return false;
    }
    sheet.rows := sheet.rows + [SheetRow(r)];
    ok := true;
  }
}
