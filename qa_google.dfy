/**
 * The QA sheet sync of `decagon_voice/voice_conversations_qa_google.py`:
 * the ids already on the sheet, the `current - existing` difference, the
 * selection of new rows and the rows appended.
 *
 * The spreadsheet is not modelled: `sheet` is what `get_all_values()`
 * returned (`None` when opening or reading the sheet raised);
 * `openRaises` says whether opening the sheet to append raised, and
 * `appendRaises` whether `append_rows` itself raised.
 */
module QaGoogle {
  import opened PyText
  import opened Options
  import opened PsqlTable
  import Satori

  // ---------------------------------------------------------------------
  // Ids already on the sheet

  /** The position of the first header equal to `conversation_id`. */
  function IndexOf(headers: seq<string>, name: string): (r: Option<nat>)
    ensures r.Some? ==> r.value < |headers| && headers[r.value] == name
    ensures r.Some? ==> forall k :: 0 <= k < r.value ==> headers[k] != name
    ensures r.None? ==> forall k :: 0 <= k < |headers| ==> headers[k] != name
  {
    if headers == [] then None
    else if headers[0] == name then Some(0)
    else match IndexOf(headers[1..], name)
      case None => None
      case Some(k) => Some(k + 1)
  }

  /** `headers.index('conversation_id')`, or `len(headers) - 1` when it is
      absent (which is -1 for an empty header row). */
  function IdColumn(headers: seq<string>): (c: int)
    ensures -1 <= c < |headers| || (headers == [] && c == -1)
  {
    match IndexOf(headers, "conversation_id")
    case Some(k) => k
    case None => |headers| - 1
  }

  /** Python's `row[col]` position for `-len(row) <= col < len(row)`. */
  function PyIndex(row: seq<string>, col: int): int {
    if col < 0 then |row| + col else col
  }

  /** The row is long enough (`len(row) > col`) but `row[col]` raises
      `IndexError`: only a negative column in an empty row. */
  predicate CellRaises(row: seq<string>, col: int) {
    |row| > col && !(0 <= PyIndex(row, col) < |row|)
  }

  /** The stripped id the row contributes, if any. */
  function RowId(row: seq<string>, col: int): Option<string>
    requires !CellRaises(row, col)
  {
    if |row| <= col then None
    else
      var cell := Strip(row[PyIndex(row, col)]);
      if cell != "" then Some(cell) else None
  }

  /** The ids the data rows give, or `None` when one of them raises. */
  function IdsOfRows(rows: seq<seq<string>>, col: int): Option<set<string>> {
    if rows == [] then Some({})
    else
      var last := rows[|rows| - 1];
      match IdsOfRows(rows[..|rows| - 1], col)
      case None => None
      case Some(ids) =>
        if CellRaises(last, col) then None
        else if RowId(last, col).Some? then Some(ids + {RowId(last, col).value})
        else Some(ids)
  }

  /** `get_existing_conversation_ids_from_sheet` (the later of its two
      identical definitions, which is the one that binds). */
  function ExistingIds(sheet: Option<seq<seq<string>>>): set<string> {
    match sheet
    case None => {}
    case Some(values) =>
      if values == [] then {}
      else match IdsOfRows(values[1..], IdColumn(values[0]))
        case None => {}
        case Some(ids) => ids
  }

  /** The loop that collects the existing ids; an `IndexError` inside it
      is caught by the surrounding `try` and yields the empty set. */
  method GetExistingConversationIds(sheet: Option<seq<seq<string>>>) returns (existingIds: set<string>)
    ensures existingIds == ExistingIds(sheet)
  {
    if sheet.None? || sheet.value == [] {
      return {};
    }
    var allValues := sheet.value;
    var col := IdColumn(allValues[0]);
    var rows := allValues[1..];
    existingIds := {};
    for i := 0 to |rows|
      invariant IdsOfRows(rows[..i], col) == Some(existingIds)
    {
      assert rows[..i + 1][..i] == rows[..i];
      var row := rows[i];
      if |row| > col {
        if CellRaises(row, col) {
          IdsOfRowsSpec(rows, col);
          return {};
        }
        var cell := Strip(row[PyIndex(row, col)]);
        if cell != "" {
          existingIds := existingIds + {cell};
        }
      }
    }
    assert rows[..|rows|] == rows;
  }

  lemma {:induction false} IdsOfRowsSpec(rows: seq<seq<string>>, col: int)
    ensures IdsOfRows(rows, col).None? <==> exists i :: 0 <= i < |rows| && CellRaises(rows[i], col)
    ensures IdsOfRows(rows, col).Some? ==> forall x :: x in IdsOfRows(rows, col).value <==>
      exists i :: 0 <= i < |rows| && RowId(rows[i], col) == Some(x)
  {
    if rows != [] {
      var init := rows[..|rows| - 1];
      IdsOfRowsSpec(init, col);
      assert forall i :: 0 <= i < |init| ==> rows[i] == init[i];
      if IdsOfRows(init, col).None? {
        var i :| 0 <= i < |init| && CellRaises(init[i], col);
        assert CellRaises(rows[i], col);
      }
    }
  }

  /** The existing ids are the stripped, non-empty id cells of the rows after
      the header, read from the `conversation_id` column or else the last
      one; an empty or unreadable sheet, or a row that makes the lookup
      raise, gives no ids at all. */
  lemma ExistingIdsCharacterized(sheet: Option<seq<seq<string>>>)
    ensures sheet.None? || sheet == Some([]) ==> ExistingIds(sheet) == {}
    ensures forall x :: x in ExistingIds(sheet) ==> x != "" && Strip(x) == x
    ensures sheet.Some? && sheet.value != [] ==>
      var col := IdColumn(sheet.value[0]);
      var rows := sheet.value[1..];
      && ((exists i :: 0 <= i < |rows| && CellRaises(rows[i], col)) ==> ExistingIds(sheet) == {})
      && ((forall i :: 0 <= i < |rows| ==> !CellRaises(rows[i], col)) ==>
            forall x :: x in ExistingIds(sheet) <==>
              exists i :: 0 <= i < |rows| && |rows[i]| > col && x != "" && x == Strip(rows[i][PyIndex(rows[i], col)]))
  {
    if sheet.Some? && sheet.value != [] {
      var col := IdColumn(sheet.value[0]);
      var rows := sheet.value[1..];
      IdsOfRowsSpec(rows, col);
      forall x | x in ExistingIds(sheet) ensures x != "" && Strip(x) == x {
        var i :| 0 <= i < |rows| && RowId(rows[i], col) == Some(x);
        StripIdempotent(rows[i][PyIndex(rows[i], col)]);
      }
    }
  }

  /** Worked case of the fallback column: with an empty header row the
      column is -1, so a data row's last cell is read; an empty data row
      then raises and the whole result is empty. */
  lemma EmptyHeaderRow()
    ensures IdColumn([]) == -1
    ensures ExistingIds(Some([[], ["a", " x1 "]])) == {"x1"}
    ensures ExistingIds(Some([[], ["a", " x1 "], []])) == {}
  {
    assert Strip(" x1 ") == "x1";
    var rows: seq<seq<string>> := [["a", " x1 "], []];
    assert rows[..1] == [["a", " x1 "]];
    var one: seq<seq<string>> := [["a", " x1 "]];
    assert one[..0] == [];
  }

  // ---------------------------------------------------------------------
  // New conversations

  /** A parsed row's `conversation_id` (parsed rows always have it, by
      `PsqlTable.ParsedRowShape`). */
  function IdOfRow(r: Row): string {
    if "conversation_id" in r then r["conversation_id"] else ""
  }

  /** `set(df['conversation_id'].tolist())` */
  function CurrentIds(rows: seq<Row>): set<string> {
    set i | 0 <= i < |rows| :: IdOfRow(rows[i])
  }

  /** `df[df['conversation_id'].isin(new_ids)].to_dict('records')` */
  function SelectNew(rows: seq<Row>, newIds: set<string>): seq<Row> {
    if rows == [] then []
    else
      var last := rows[|rows| - 1];
      SelectNew(rows[..|rows| - 1], newIds) + (if IdOfRow(last) in newIds then [last] else [])
  }

  /** Which rows go on: as many as the number of rows whose id is new. */
  function CountNew(rows: seq<Row>, newIds: set<string>): nat {
    if rows == [] then 0
    else CountNew(rows[..|rows| - 1], newIds) + (if IdOfRow(rows[|rows| - 1]) in newIds then 1 else 0)
  }

  /** The selection keeps exactly the rows whose id is new, in their order:
      it is a subsequence of the rows, so every kept row is one of them, and
      every row with a new id is kept (a repeated id is kept each time). */
  lemma {:induction false} SelectNewSpec(rows: seq<Row>, newIds: set<string>)
    ensures |SelectNew(rows, newIds)| == CountNew(rows, newIds) <= |rows|
    ensures forall r :: r in SelectNew(rows, newIds) <==> r in rows && IdOfRow(r) in newIds
  {
    if rows != [] {
      SelectNewSpec(rows[..|rows| - 1], newIds);
      assert rows == rows[..|rows| - 1] + [rows[|rows| - 1]];
    }
  }

  /** Every new id comes from some row, so a non-empty set of new ids
      selects at least one row, and every selected row has a new id. */
  lemma NewRowsSelected(rows: seq<Row>, newIds: set<string>)
    requires newIds <= CurrentIds(rows)
    ensures newIds != {} ==> SelectNew(rows, newIds) != []
    ensures forall i :: 0 <= i < |SelectNew(rows, newIds)| ==>
      IdOfRow(SelectNew(rows, newIds)[i]) in newIds
  {
    SelectNewSpec(rows, newIds);
    var sel := SelectNew(rows, newIds);
    assert forall i :: 0 <= i < |sel| ==> sel[i] in sel;
    if newIds != {} {
      var x :| x in newIds;
      var i :| 0 <= i < |rows| && IdOfRow(rows[i]) == x;
      assert rows[i] in sel;
    }
  }

  /** With the new ids taken as `current - existing`, the selected rows are
      the rows whose id is not on the sheet, and there are some exactly when
      there are new ids. */
  lemma SelectedIdsAreNew(rows: seq<Row>, existing: set<string>)
    ensures var newIds := CurrentIds(rows) - existing;
      forall i :: 0 <= i < |SelectNew(rows, newIds)| ==>
        IdOfRow(SelectNew(rows, newIds)[i]) in newIds && IdOfRow(SelectNew(rows, newIds)[i]) !in existing
    ensures var newIds := CurrentIds(rows) - existing;
      newIds != {} <==> SelectNew(rows, newIds) != []
  {
    var newIds := CurrentIds(rows) - existing;
    NewRowsSelected(rows, newIds);
    var sel := SelectNew(rows, newIds);
    if sel != [] {
      assert IdOfRow(sel[0]) in newIds;
    }
  }

  /** How `add_new_conversations_to_sheet` ended. */
  datatype AddResult = AddResult(success: bool, appendCall: Option<seq<seq<string>>>)

  /** `add_new_conversations_to_sheet`: one `append_rows` call with all rows,
      none for an empty list (which still reports success); a sheet that
      cannot be opened fails before any row is built. */
  method AddNewConversationsToSheet(newConversations: seq<Row>, openRaises: bool, appendRaises: bool) returns (r: AddResult)
    ensures openRaises ==> r == AddResult(false, None)
    ensures !openRaises && |newConversations| == 0 ==> r == AddResult(true, None)
    ensures !openRaises && |newConversations| > 0 ==> r.appendCall.Some? && r.success == !appendRaises
    ensures r.appendCall.Some? ==>
      |r.appendCall.value| == |newConversations| &&
      forall i :: 0 <= i < |newConversations| ==> r.appendCall.value[i] == Project(QaSheetColumns, newConversations[i])
  {
    if openRaises {
      return AddResult(false, None);
    }
    var rowsToAdd: seq<seq<string>> := [];
    for i := 0 to |newConversations|
      invariant |rowsToAdd| == i
      invariant forall j :: 0 <= j < i ==> rowsToAdd[j] == Project(QaSheetColumns, newConversations[j])
    {
      rowsToAdd := rowsToAdd + [Project(QaSheetColumns, newConversations[i])];
    }
    if |rowsToAdd| > 0 {
      return AddResult(!appendRaises, Some(rowsToAdd));
    }
    return AddResult(true, None);
  }

  // ---------------------------------------------------------------------
  // `main`

  /** Where `main` stopped and what it wrote. */
  datatype QaSheetRun =
    | NoQuery                      // the SQL file is missing or empty
    | NoConversations              // the query failed or returned no rows
    | NoClient                     // no Google credentials
    | NothingNew(existing: set<string>)
    | Added(existing: set<string>, newIds: set<string>, rows: seq<seq<string>>, success: bool)

  /** The rows `main` would append once the existing ids are known. */
  function RowsToAdd(conversations: seq<Row>, existing: set<string>): seq<seq<string>> {
    var sel := SelectNew(conversations, CurrentIds(conversations) - existing);
    seq(|sel|, i requires 0 <= i < |sel| => Project(QaSheetColumns, sel[i]))
  }

  /** Every appended row has the twelve sheet columns and a new id in the
      last one. */
  lemma RowsToAddIds(conversations: seq<Row>, existing: set<string>)
    ensures var rows := RowsToAdd(conversations, existing);
      forall i :: 0 <= i < |rows| ==>
        |rows[i]| == 12 && rows[i][11] in CurrentIds(conversations) - existing
  {
    ColumnsDistinct();
    SelectedIdsAreNew(conversations, existing);
  }

  /** `main`. `queryFound` says whether the SQL file gave a non-empty query.
      One flag, `sheetFails`, stands for both failures of
      `add_new_conversations_to_sheet`: opening the sheet raising and
      `append_rows` raising. Either makes it return `False`. */
  function QaGoogleMain(queryFound: bool, runs: nat -> Satori.RunOutcome, clientOk: bool,
                        sheet: Option<seq<seq<string>>>, sheetFails: bool): (r: QaSheetRun)
    ensures !queryFound <==> r.NoQuery?
    ensures r.Added? ==> r.newIds != {} && r.newIds * r.existing == {} && r.rows != []
    ensures r.Added? ==> forall i :: 0 <= i < |r.rows| ==> |r.rows[i]| == 12 && r.rows[i][11] in r.newIds
    ensures r.Added? ==> r.existing == ExistingIds(sheet) && r.success == !sheetFails
    ensures r.NothingNew? ==> r.existing == ExistingIds(sheet)
    ensures var q := Satori.QueryRows(QaLayout, QaSheetColumns, runs);
      r.NoConversations? <==> queryFound && (q.None? || q.value == [])
    ensures var q := Satori.QueryRows(QaLayout, QaSheetColumns, runs);
      r.NoClient? <==> queryFound && q.Some? && q.value != [] && !clientOk
    ensures var q := Satori.QueryRows(QaLayout, QaSheetColumns, runs);
      r.Added? <==> queryFound && q.Some? && q.value != [] && clientOk && CurrentIds(q.value) - ExistingIds(sheet) != {}
    ensures var q := Satori.QueryRows(QaLayout, QaSheetColumns, runs);
      r.Added? ==> r.newIds == CurrentIds(q.value) - ExistingIds(sheet) && r.rows == RowsToAdd(q.value, r.existing)
  {
    if !queryFound then NoQuery
    else
      var q := Satori.QueryRows(QaLayout, QaSheetColumns, runs);
      if q.None? || q.value == [] then NoConversations
      else if !clientOk then NoClient
      else
        var conversations := q.value;
        var existing := ExistingIds(sheet);
        var newIds := CurrentIds(conversations) - existing;
        if newIds == {} then NothingNew(existing)
        else
          SelectedIdsAreNew(conversations, existing);
          RowsToAddIds(conversations, existing);
          Added(existing, newIds, RowsToAdd(conversations, existing), !sheetFails)
  }
}
