/**
 * The dry run of the QA sheet sync (`decagon_voice/test_qa_flow.py`): the
 * same retrying query and parser as the sheet sync, the processed ids read
 * from the local tracking file instead of the sheet, and the new rows written
 * to a test output file instead of the sheet.
 *
 * The file system is not modelled: `file` is what opening and decoding
 * `processed_conversations.json` gave, and `stamp` is the
 * `%Y%m%d_%H%M%S` text of the clock.
 */
module QaFlowTest {
  import opened Options
  import opened Json
  import opened PsqlTable
  import Satori
  import QaGoogle

  /** What reading the tracking file gave. */
  datatype TrackingFile =
    | Missing               // `os.path.exists` is false
    | LoadFailed            // opening or `json.load` raised
    | Loaded(data: Json)

  const ProcessedFileName: string := "processed_conversations.json"
  const ProcessedKey: string := "processed_conversation_ids"

  /** Python's `set(v)`: the items of a list (all of which must be hashable),
      the one-character strings of a string, the keys of a dictionary;
      anything else raises `TypeError`. */
  function SetOf(v: Json): (r: Option<set<Json>>)
    ensures r.None? <==> !(v.Arr? || v.Str? || v.Obj?) || (v.Arr? && exists i :: 0 <= i < |v.items| && !Hashable(v.items[i]))
    ensures v.Arr? && r.Some? ==> r.value == set i | 0 <= i < |v.items| :: v.items[i]
  {
    match v
    case Arr(items) =>
      if forall i :: 0 <= i < |items| ==> Hashable(items[i]) then Some(set i | 0 <= i < |items| :: items[i]) else None
    case Str(s) => Some(set i | 0 <= i < |s| :: Str([s[i]]))
    case Obj(fields) => Some(set k | k in fields :: Str(k))
    case _ => None
  }

  /** `get_processed_conversation_ids()`: every failure, including a value
      that is not a dictionary (`.get` raises) or one that `set` refuses,
      gives the empty set. */
  function ProcessedIds(file: TrackingFile): set<Json> {
    match file
    case Loaded(Obj(fields)) =>
      var ids := SetOf(GetOr(fields, ProcessedKey, Arr([])));
      if ids.Some? then ids.value else {}
    case _ => {}
  }

  /** The processed ids are empty when the file is missing or unreadable;
      for a record whose id entry is a list of strings, they are exactly
      those strings; and an absent entry reads as the empty list. */
  lemma ProcessedIdsSpec(file: TrackingFile)
    ensures file.Missing? || file.LoadFailed? ==> ProcessedIds(file) == {}
    ensures file.Loaded? && !file.data.Obj? ==> ProcessedIds(file) == {}
    ensures file.Loaded? && file.data.Obj? && ProcessedKey !in file.data.fields ==> ProcessedIds(file) == {}
    ensures file.Loaded? && file.data.Obj? && ProcessedKey in file.data.fields ==>
      var v := file.data.fields[ProcessedKey];
      (v.Arr? && forall i :: 0 <= i < |v.items| ==> v.items[i].Str?) ==>
        forall x :: Str(x) in ProcessedIds(file) <==> exists i :: 0 <= i < |v.items| && v.items[i] == Str(x)
  {
    if file.Loaded? && file.data.Obj? && ProcessedKey in file.data.fields {
      var v := file.data.fields[ProcessedKey];
      if v.Arr? && forall i :: 0 <= i < |v.items| ==> v.items[i].Str? {
        assert forall i :: 0 <= i < |v.items| ==> Hashable(v.items[i]);
      }
    }
  }

  /** `current_conversation_ids - processed_ids`, the ids being strings. */
  function NewIds(current: set<string>, processed: set<Json>): (r: set<string>)
    ensures r <= current
    ensures forall x :: x in r <==> x in current && Str(x) !in processed
  {
    set x | x in current && Str(x) !in processed
  }

  /** One file the run writes. */
  datatype Write = Write(name: string, rows: seq<Row>)

  /** Where the run stopped, and what it wrote. */
  datatype QaFlowRun =
    | NoQuery
    | NoConversations
    | NothingNew(processed: set<Json>)
    | WouldAdd(newIds: set<string>, rows: seq<Row>, written: Write)

  /** `main()` of the dry run. `queryFound` says whether the SQL file gave
      a non-empty query; a missing or empty file ends the run at once. */
  function QaFlowMain(queryFound: bool, runs: nat -> Satori.RunOutcome, file: TrackingFile, stamp: string): (r: QaFlowRun)
    ensures r.WouldAdd? ==> r.newIds != {} && r.rows != [] && r.written.rows == r.rows
    ensures r.WouldAdd? ==> forall x :: x in r.newIds ==> Str(x) !in ProcessedIds(file)
    ensures r.WouldAdd? ==> r.written.name == "new_conversations_test_" + stamp + ".json"
    ensures r.WouldAdd? ==> forall i :: 0 <= i < |r.rows| ==> QaGoogle.IdOfRow(r.rows[i]) in r.newIds
    ensures r.NoQuery? <==> !queryFound
    ensures var q := Satori.QueryRows(QaLayout, QaSheetColumns, runs);
      r.NoConversations? <==> queryFound && (q.None? || q.value == [])
    ensures var q := Satori.QueryRows(QaLayout, QaSheetColumns, runs);
      r.WouldAdd? <==>
        queryFound && q.Some? && q.value != [] && NewIds(QaGoogle.CurrentIds(q.value), ProcessedIds(file)) != {}
    ensures var q := Satori.QueryRows(QaLayout, QaSheetColumns, runs);
      r.WouldAdd? ==>
        r.newIds == NewIds(QaGoogle.CurrentIds(q.value), ProcessedIds(file)) &&
        r.rows == QaGoogle.SelectNew(q.value, r.newIds)
    ensures r.NothingNew? ==> r.processed == ProcessedIds(file)
  {
    if !queryFound then NoQuery
    else
      var q := Satori.QueryRows(QaLayout, QaSheetColumns, runs);
      if q.None? || q.value == [] then NoConversations
      else
        var conversations := q.value;
        var processed := ProcessedIds(file);
        var newIds := NewIds(QaGoogle.CurrentIds(conversations), processed);
        if newIds == {} then NothingNew(processed)
        else
          var rows := QaGoogle.SelectNew(conversations, newIds);
          QaGoogle.SelectNewSpec(conversations, newIds);
          QaGoogle.NewRowsSelected(conversations, newIds);
          WouldAdd(newIds, rows, Write("new_conversations_test_" + stamp + ".json", rows))
  }

  /** The dry run never touches the tracking file: its only write is the
      time-stamped test output. */
  lemma NeverWritesTrackingFile(queryFound: bool, runs: nat -> Satori.RunOutcome, file: TrackingFile, stamp: string)
    ensures var r := QaFlowMain(queryFound, runs, file, stamp);
      r.WouldAdd? ==> r.written.name != ProcessedFileName
  {
    var r := QaFlowMain(queryFound, runs, file, stamp);
    if r.WouldAdd? {
      assert r.written.name[0] == 'n' != ProcessedFileName[0];
    }
  }
}
