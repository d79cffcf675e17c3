/**
 * The warehouse fetcher (`decagon_voice/voice_conversations_warehouse_clean.py`):
 * one query through an SSH tunnel, each result row turned into a
 * nine-column record, the records saved and sent one by one to the
 * webhook, and the run timestamp saved.
 *
 * The tunnel, the database driver and the webhook are not modelled: the
 * query result is given as the rows `fetchall()` returned (or `None` when
 * anything raised), and `replies(i)` is the answer to the POST of the i-th
 * record. The clock is the parameter `now`.
 */
module WarehouseClean {
  import opened Options
  import opened PyText
  import opened Json
  import opened PsqlTable
  import WorkatoQa
  import opened VoiceSend

  /** A value the database driver hands back in a result row. */
  datatype DbValue =
    | DbNull
    | DbText(s: string)
    | DbInt(n: int)
    | DbBool(b: bool)
    | DbTime(text: string)   // a timestamp, whose `str()` is `text`

  /** Python's `str(v)` for a driver value. */
  function PyStr(v: DbValue): string {
    match v
    case DbNull => "None"
    case DbText(s) => s
    case DbInt(n) => IntToString(n)
    case DbBool(b) => BoolText(b)
    case DbTime(text) => text
  }

  /** A fetched conversation: column name to value. */
  type Record = map<string, DbValue>

  /** The value a record takes from position `i` of a result row: absent
      positions read as `''`, and `created_at_utc` (position 5) is turned
      into text. */
  function CellAt(row: seq<DbValue>, i: nat): DbValue {
    if |row| > i then (if i == 5 then DbText(PyStr(row[5])) else row[i]) else DbText("")
  }

  /** The dictionary `run_ssh_tunnel_query` builds from one result row:
      the nine columns, by position. */
  function RecordOf(row: seq<DbValue>): Record {
    Zip(WarehouseColumns, seq(9, i requires 0 <= i < 9 => CellAt(row, i)))
  }

  /** A record has exactly the nine warehouse columns; the column at
      position i holds the row's i-th value when the row has one and `''`
      otherwise, except that `created_at_utc` always holds text. Extra
      values of a longer row are dropped. */
  lemma RecordOfSpec(row: seq<DbValue>)
    ensures RecordOf(row).Keys == set k | k in WarehouseColumns
    ensures forall i :: 0 <= i < |WarehouseColumns| && i != 5 ==>
      RecordOf(row)[WarehouseColumns[i]] == (if i < |row| then row[i] else DbText(""))
    ensures RecordOf(row)["created_at_utc"] == DbText(if 5 < |row| then PyStr(row[5]) else "")
  {
    ColumnsDistinct();
    ZipSpec(WarehouseColumns, seq(9, i requires 0 <= i < 9 => CellAt(row, i)));
    assert WarehouseColumns[5] == "created_at_utc";
  }

  /** The result loop of `run_ssh_tunnel_query`. */
  method ToConversations(results: seq<seq<DbValue>>) returns (conversations: seq<Record>)
    ensures |conversations| == |results|
    ensures forall i :: 0 <= i < |results| ==> conversations[i] == RecordOf(results[i])
  {
    conversations := [];
    for i := 0 to |results|
      invariant |conversations| == i
      invariant forall j :: 0 <= j < i ==> conversations[j] == RecordOf(results[j])
    {
      conversations := conversations + [RecordOf(results[i])];
    }
  }

  /** `get_voice_conversations_from_warehouse()`: a missing or empty query
      file, a failed query and an empty result all give no conversations. */
  function Fetch(query: Option<string>, results: Option<seq<seq<DbValue>>>): (r: seq<Record>)
    ensures query.None? || query == Some("") || results.None? ==> r == []
    ensures query.Some? && query.value != "" && results.Some? ==>
      |r| == |results.value| &&
      forall i :: 0 <= i < |r| ==> r[i] == RecordOf(results.value[i])
  {
    if query.None? || query.value == "" then []
    else if results.None? then []
    else seq(|results.value|, i requires 0 <= i < |results.value| => RecordOf(results.value[i]))
  }

  /** The parser of this script, kept beside the tunnel query: aligned psql
      output filtered on `conversation_id`. Output of fewer than three lines
      gives nothing; every row has exactly the nine columns, each the
      stripped field at its position; and no field of a parsed row contains
      `conversation_id`, so a record whose own text mentions it is dropped. */
  lemma ParseWarehouse(output: string)
    ensures |Lines(output)| < 3 ==> Parse(WarehouseLayout, WarehouseColumns, output) == []
    ensures forall r :: r in Parse(WarehouseLayout, WarehouseColumns, output) ==>
      r.Keys == (set k | k in WarehouseColumns) &&
      exists l :: l in Lines(output) && Parsable(WarehouseLayout, WarehouseColumns, l) &&
        forall i :: 0 <= i < 9 ==> r[WarehouseColumns[i]] == Strip(Split(l, '|')[i])
    ensures forall r, k :: r in Parse(WarehouseLayout, WarehouseColumns, output) && k in r ==>
      !Contains(r[k], "conversation_id")
  {
    ColumnsDistinct();
    ParseCharacterized(WarehouseLayout, WarehouseColumns, output);
    ParsedRowShape(WarehouseLayout, WarehouseColumns, output);
    MarkerNeverInFields(WarehouseColumns, output, "conversation_id");
  }

  // ---------------------------------------------------------------------
  // Sending

  /** The JSON body of one POST: `conversation.get(k)` for the nine columns.
      The record's other fields are not sent, and a receiver that drops the
      nulls reads back exactly the record's columns. `requests` can encode
      only JSON values: a `DbTime` in any column but `created_at_utc` (which
      `RecordOf` turns into text) makes `post` raise before anything is
      sent, which the send loop meets as a `Transport` reply; the body is
      still listed in `posts`. */
  function Payload(conversation: Record): (p: map<string, Option<DbValue>>)
    ensures p.Keys == set k | k in WarehouseColumns
    ensures Present(p) == Restrict(conversation, WarehouseColumns)
  {
    map k | k in WarehouseColumns :: if k in conversation then Some(conversation[k]) else None
  }

  /** A fetched record reaches the webhook whole: every column is present
      in the body with the record's own value, none of them `null`. */
  lemma PayloadOfRecord(row: seq<DbValue>)
    ensures forall k :: k in WarehouseColumns ==> k in RecordOf(row) && Payload(RecordOf(row))[k] == Some(RecordOf(row)[k])
  {
    RecordOfSpec(row);
  }

  /** How a run ended. */
  datatype WarehouseRun =
    | NoConversations
    | Ran(saved: seq<Record>, sentCount: Option<nat>, posts: seq<map<string, Option<DbValue>>>, lastRun: Json)

  /** `main()`: fetch; stop early (without saving the timestamp) when nothing
      came back; otherwise save the records, send them when a webhook is
      configured, and save the run timestamp. */
  method WarehouseMain(query: Option<string>, results: Option<seq<seq<DbValue>>>, url: Option<string>,
                       replies: nat -> WorkatoQa.Response, now: int) returns (run: WarehouseRun)
    ensures Fetch(query, results) == [] <==> run.NoConversations?
    ensures run.Ran? ==> run.saved == Fetch(query, results) && run.lastRun == LastRunRecord(now)
    ensures run.Ran? ==> (run.sentCount.Some? <==> WebhookConfigured(url))
    ensures run.Ran? && !WebhookConfigured(url) ==> run.posts == []
    ensures run.Ran? && WebhookConfigured(url) ==>
      run.sentCount == Some(SentCount(replies, |run.saved|)) &&
      |run.posts| == |run.saved| &&
      forall i :: 0 <= i < |run.saved| ==> run.posts[i] == Payload(run.saved[i])
  {
    var conversations := [];
    if query.Some? && query.value != "" {
      if results.Some? {
        conversations := ToConversations(results.value);
      }
    }
    assert conversations == Fetch(query, results);
    if conversations == [] {
      return NoConversations;
    }
    var sent: Option<nat> := None;
    var posts := [];
    if WebhookConfigured(url) {
      var count;
      count, posts := SendAll(conversations, Payload, replies);
      sent := Some(count);
    }
    run := Ran(conversations, sent, posts, LastRunRecord(now));
  }
}
