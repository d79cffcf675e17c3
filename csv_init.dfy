/**
 * Bootstrapping the tracking file from an export
 * (`decagon_voice/initialize_from_csv.py`).
 *
 * The file system and the `csv` module are not modelled: the file is
 * given as its first line (as `readline()` returns it) together with the
 * rows `csv.reader` yields for the whole file, and `now` is the
 * `datetime.now().isoformat()` text.
 */
module CsvInit {
  import opened PyText
  import opened Options
  import opened Json
  import QaFlowTest

  /** The export as the script finds it. */
  datatype CsvFile =
    | NotFound                                    // `os.path.exists` is false
    | Unreadable                                  // opening or reading raised
    | Csv(firstLine: string, rows: seq<seq<string>>)

  /** `'conversation_id' in first_line.lower() or 'id' in first_line.lower()`
      on the stripped first line. */
  predicate HasHeader(firstLine: string) {
    var l := Lower(Strip(firstLine));
    Contains(l, "conversation_id") || Contains(l, "id")
  }

  /** The header test reduces to `'id' in first_line.lower()`: any line
      containing `conversation_id` also contains `id`. */
  lemma HasHeaderIffId(firstLine: string)
    ensures HasHeader(firstLine) <==> Contains(Lower(Strip(firstLine)), "id")
  {
    var l := Lower(Strip(firstLine));
    if Contains(l, "conversation_id") {
      var i := ContainsAt(l, "conversation_id");
      assert l[i + 13..i + 15] == "conversation_id"[13..15] == "id";
      assert OccursAt(l, "id", i + 13);
      OccursContains(l, "id", i + 13);
    }
  }

  /** The id a row contributes: its stripped first cell, unless the row is
      empty, the cell is blank, or it is the literal `conversation_id`. */
  function CellId(row: seq<string>): (r: Option<string>)
    ensures r.Some? ==> r.value != "" && r.value != "conversation_id"
  {
    if |row| == 0 then None
    else
      var id := Strip(row[0]);
      if id != "" && id != "conversation_id" then Some(id) else None
  }

  /** The ids of a run of rows, as a set. */
  function IdSet(rows: seq<seq<string>>): set<string> {
    set i | 0 <= i < |rows| && CellId(rows[i]).Some? :: CellId(rows[i]).value
  }

  /** Every collected id is stripped, non-empty and not the column name, and
      every row with such a first cell contributes it. */
  lemma IdSetSpec(rows: seq<seq<string>>)
    ensures forall x :: x in IdSet(rows) ==> x != "" && x != "conversation_id" && Strip(x) == x
    ensures forall i :: 0 <= i < |rows| && |rows[i]| > 0 && Strip(rows[i][0]) != "" && Strip(rows[i][0]) != "conversation_id" ==>
      Strip(rows[i][0]) in IdSet(rows)
  {
    forall x | x in IdSet(rows) ensures Strip(x) == x {
      var i :| 0 <= i < |rows| && CellId(rows[i]).Some? && CellId(rows[i]).value == x;
      StripIdempotent(rows[i][0]);
    }
    forall i | 0 <= i < |rows| && |rows[i]| > 0 && Strip(rows[i][0]) != "" && Strip(rows[i][0]) != "conversation_id"
      ensures Strip(rows[i][0]) in IdSet(rows)
    {
      assert CellId(rows[i]) == Some(Strip(rows[i][0]));
    }
  }

  /** The rows after the skipped header. */
  function Body(file: CsvFile): seq<seq<string>>
    requires file.Csv?
  {
    if HasHeader(file.firstLine) && file.rows != [] then file.rows[1..] else file.rows
  }

  /** No element occurs twice. */
  predicate NoDuplicates(xs: seq<string>) {
    forall i, j :: 0 <= i < j < |xs| ==> xs[i] != xs[j]
  }

  /** The tracking dictionary the script saves. */
  function TrackingRecord(csvPath: string, ids: seq<string>, now: string): Json {
    Obj(map[
      QaFlowTest.ProcessedKey := Arr(seq(|ids|, i requires 0 <= i < |ids| => Str(ids[i]))),
      "last_updated" := Str(now),
      "source" := Str("Initialized from CSV: " + csvPath),
      "total_count" := Num(|ids|)])
  }

  /** How the run ended: the return value and the record handed to
      `json.dump`, if the script got that far. */
  datatype InitRun = InitRun(ok: bool, record: Option<Json>)

  /** `list(conversation_ids)`: the set's elements in an order the model
      leaves open, each once. */
  method ListOf(ids: set<string>) returns (list: seq<string>)
    ensures NoDuplicates(list) && |list| == |ids|
    ensures forall x :: x in list <==> x in ids
  {
    list := [];
    var rest := ids;
    while rest != {}
      invariant rest <= ids && |list| + |rest| == |ids|
      invariant forall x :: x in list <==> x in ids && x !in rest
      invariant NoDuplicates(list)
      decreases |rest|
    {
      var x :| x in rest;
      list := list + [x];
      rest := rest - {x};
    }
  }

  /** `initialize_from_csv(csv_file_path)`; `writeOk` says whether saving
      the file succeeded. */
  method InitializeFromCsv(csvPath: string, file: CsvFile, now: string, writeOk: bool) returns (r: InitRun)
    ensures !file.Csv? ==> r == InitRun(false, None)
    ensures file.Csv? && HasHeader(file.firstLine) && file.rows == [] ==> r == InitRun(false, None)
    ensures file.Csv? && !(HasHeader(file.firstLine) && file.rows == []) ==>
      r.ok == writeOk && r.record.Some? &&
      exists ids :: NoDuplicates(ids) && |ids| == |IdSet(Body(file))| &&
        (forall x :: x in ids <==> x in IdSet(Body(file))) &&
        r.record.value == TrackingRecord(csvPath, ids, now)
  {
    if !file.Csv? {
      return InitRun(false, None);
    }
    var rows := file.rows;
    var start := 0;
    if HasHeader(file.firstLine) {
      if rows == [] {
        // `next(reader)` raises `StopIteration`, caught by the outer `try`.
        return InitRun(false, None);
      }
      start := 1;
    }
    ghost var body := rows[start..];
    assert body == Body(file);
    var conversationIds: set<string> := {};
    for i := start to |rows|
      invariant conversationIds == IdSet(rows[start..i])
    {
      var row := rows[i];
      if row != [] && |row| > 0 {
        var id := Strip(row[0]);
        if id != "" && id != "conversation_id" {
          conversationIds := conversationIds + {id};
        }
      }
      IdSetExtend(rows, start, i);
    }
    assert rows[start..|rows|] == body;
    var list := ListOf(conversationIds);
    r := InitRun(writeOk, Some(TrackingRecord(csvPath, list, now)));
  }

  /** One more row adds its id, if it has one. */
  lemma IdSetExtend(rows: seq<seq<string>>, start: nat, i: nat)
    requires start <= i < |rows|
    ensures IdSet(rows[start..i + 1]) ==
      IdSet(rows[start..i]) + (if CellId(rows[i]).Some? then {CellId(rows[i]).value} else {})
  {
    var a, b := rows[start..i], rows[start..i + 1];
    assert forall k :: 0 <= k < |a| ==> b[k] == a[k];
    assert b[|a|] == rows[i];
  }

  /** What the bootstrap writes is what the dry run reads back: the
      processed ids of the saved record are exactly the collected ids. */
  lemma RecordReadsBack(csvPath: string, ids: seq<string>, now: string)
    ensures forall x :: Str(x) in QaFlowTest.ProcessedIds(QaFlowTest.Loaded(TrackingRecord(csvPath, ids, now))) <==> x in ids
  {
    var rec := TrackingRecord(csvPath, ids, now);
    var v := rec.fields[QaFlowTest.ProcessedKey];
    assert forall i :: 0 <= i < |v.items| ==> v.items[i] == Str(ids[i]);
    QaFlowTest.ProcessedIdsSpec(QaFlowTest.Loaded(rec));
    forall x | x in ids ensures Str(x) in QaFlowTest.ProcessedIds(QaFlowTest.Loaded(rec)) {
      var i :| 0 <= i < |ids| && ids[i] == x;
      assert v.items[i] == Str(x);
    }
  }
}
