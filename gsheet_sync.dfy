/**
 * The "new rows only" sheet export of
 * `decagon_voice/voice_conversations_to_gsheet.py`.
 *
 * The worksheet is a `Worksheet` object: the cell values `get_all_values()`
 * reads and the log of writing calls made on it. `append_row` and
 * `append_rows` add rows after the last row, `insert_row(row, 1)` puts one
 * above the first. The query runs once, unaligned (`-A -F '|' -t`), so the
 * output has no header or footer.
 */
module GsheetSync {
  import opened PyText
  import opened Options
  import opened PsqlTable
  import Satori

  /** A writing call on the worksheet. */
  datatype SheetCall =
    | AppendRow(row: seq<string>)
    | InsertRow(row: seq<string>, index: nat)
    | AppendRows(rows: seq<seq<string>>)

  class Worksheet {
    var values: seq<seq<string>>
    var calls: seq<SheetCall>

    constructor(initial: seq<seq<string>>)
      ensures values == initial && calls == []
    {
      values := initial;
      calls := [];
    }

    method AppendOne(row: seq<string>)
      modifies this
      ensures values == old(values) + [row]
      ensures calls == old(calls) + [AppendRow(row)]
    {
      values := values + [row];
      calls := calls + [AppendRow(row)];
    }

    /** `insert_row(row, index=1)`: the new row becomes the first. */
    method InsertFirst(row: seq<string>)
      modifies this
      ensures values == [row] + old(values)
      ensures calls == old(calls) + [InsertRow(row, 1)]
    {
      values := [row] + values;
      calls := calls + [InsertRow(row, 1)];
    }

    method AppendMany(rows: seq<seq<string>>)
      modifies this
      ensures values == old(values) + rows
      ensures calls == old(calls) + [AppendRows(rows)]
    {
      values := values + rows;
      calls := calls + [AppendRows(rows)];
    }
  }

  // ---------------------------------------------------------------------
  // Headers

  /** `[h.strip() for h in row]` */
  function StripCells(row: seq<string>): seq<string> {
    seq(|row|, i requires 0 <= i < |row| => Strip(row[i]))
  }

  /** The header calls `ensure_headers` makes on a sheet holding `values`. */
  function HeaderCalls(values: seq<seq<string>>): seq<SheetCall> {
    if values == [] then [AppendRow(GsheetHeaders)]
    else if StripCells(values[0]) != GsheetHeaders then [InsertRow(GsheetHeaders, 1)]
    else []
  }

  /** The sheet after `ensure_headers`. */
  function WithHeaders(values: seq<seq<string>>): seq<seq<string>> {
    if values == [] then [GsheetHeaders]
    else if StripCells(values[0]) != GsheetHeaders then [GsheetHeaders] + values
    else values
  }

  /** `ensure_headers(ws)` */
  method EnsureHeaders(ws: Worksheet)
    modifies ws
    ensures ws.values == WithHeaders(old(ws.values))
    ensures ws.calls == old(ws.calls) + HeaderCalls(old(ws.values))
  {
    var values := ws.values;
    if values == [] {
      ws.AppendOne(GsheetHeaders);
      return;
    }
    var first := values[0];
    if StripCells(first) != GsheetHeaders {
      ws.InsertFirst(GsheetHeaders);
    }
  }

  /** No header has surrounding whitespace. */
  lemma HeaderStripped(k: nat)
    requires k < |GsheetHeaders|
    ensures Strip(GsheetHeaders[k]) == GsheetHeaders[k]
  {
    var h := GsheetHeaders[k];
    assert h != [] && h[0] != ' ' && h[|h| - 1] != ' ';
    StripUnchanged(h);
  }

  /** The header row is its own stripped form. */
  lemma HeadersStripped()
    ensures StripCells(GsheetHeaders) == GsheetHeaders
  {
    forall i | 0 <= i < |GsheetHeaders| ensures StripCells(GsheetHeaders)[i] == GsheetHeaders[i] {
      HeaderStripped(i);
    }
  }

  /** Afterwards the first row, stripped, is the header row; earlier rows are
      kept below it; at most one call is made; and a second call changes
      nothing. */
  lemma WithHeadersSpec(values: seq<seq<string>>)
    ensures var v := WithHeaders(values);
      v != [] && StripCells(v[0]) == GsheetHeaders
    ensures WithHeaders(values)[|WithHeaders(values)| - |values|..] == values
    ensures |HeaderCalls(values)| <= 1
    ensures HeaderCalls(values) == [] <==> WithHeaders(values) == values
    ensures WithHeaders(WithHeaders(values)) == WithHeaders(values)
    ensures HeaderCalls(WithHeaders(values)) == []
  {
    HeadersStripped();
  }

  // ---------------------------------------------------------------------
  // Existing ids and the rows to append

  /** `get_existing_ids(ws)`: the non-empty first cells below the first row. */
  function ExistingIds(values: seq<seq<string>>): set<string> {
    if values == [] then {}
    else set i | 1 <= i < |values| && |values[i]| > 0 && values[i][0] != "" :: values[i][0]
  }

  const LinkKey: string := "decagon_conversation_link"

  /** A conversation is appended unless its link is missing, empty or
      already on the sheet. */
  predicate IsNew(c: Row, existing: set<string>) {
    LinkKey in c && c[LinkKey] != "" && c[LinkKey] !in existing
  }

  /** `to_append`, in conversation order. */
  function ToAppend(conversations: seq<Row>, existing: set<string>): (rows: seq<seq<string>>)
    ensures |rows| <= |conversations|
  {
    if conversations == [] then []
    else
      var last := conversations[|conversations| - 1];
      ToAppend(conversations[..|conversations| - 1], existing) +
        (if IsNew(last, existing) then [Project(GsheetHeaders, last)] else [])
  }

  /** Every appended row is the header-ordered projection of a new
      conversation, and every new conversation yields a row: the rows are
      those of the new conversations, in order (each one once per
      occurrence, since `existing` is not updated inside the loop). */
  lemma {:induction false} ToAppendSpec(conversations: seq<Row>, existing: set<string>)
    ensures forall r :: r in ToAppend(conversations, existing) <==>
      exists i :: 0 <= i < |conversations| && IsNew(conversations[i], existing) && r == Project(GsheetHeaders, conversations[i])
  {
    if conversations != [] {
      var init := conversations[..|conversations| - 1];
      ToAppendSpec(init, existing);
      assert forall i :: 0 <= i < |init| ==> conversations[i] == init[i];
    }
  }

  /** Each appended row has the nine header cells, led by a link that is
      non-empty and not yet on the sheet. */
  lemma AppendedRowsAreNew(conversations: seq<Row>, existing: set<string>)
    ensures forall r :: r in ToAppend(conversations, existing) ==> |r| == 9 && r[0] != "" && r[0] !in existing
  {
    ToAppendSpec(conversations, existing);
    forall r | r in ToAppend(conversations, existing) ensures |r| == 9 && r[0] != "" && r[0] !in existing {
      var i :| 0 <= i < |conversations| && IsNew(conversations[i], existing) && r == Project(GsheetHeaders, conversations[i]);
      assert r[0] == conversations[i][LinkKey];
    }
  }

  /** A link seen twice in one batch is appended twice. */
  lemma SameLinkTwice(c: Row)
    requires IsNew(c, {})
    ensures ToAppend([c, c], {}) == [Project(GsheetHeaders, c), Project(GsheetHeaders, c)]
  {
    assert [c, c][..1] == [c];
    assert [c][..0] == [];
  }

  // ---------------------------------------------------------------------
  // Chunked appending

  const Chunk: nat := 200

  /** `[rows[i:i+200] for i in range(0, len(rows), 200)]` */
  function Chunks(rows: seq<seq<string>>): seq<seq<seq<string>>>
    decreases |rows|
  {
    if rows == [] then []
    else if |rows| <= Chunk then [rows]
    else [rows[..Chunk]] + Chunks(rows[Chunk..])
  }

  function Concat(chunks: seq<seq<seq<string>>>): seq<seq<string>> {
    if chunks == [] then [] else chunks[0] + Concat(chunks[1..])
  }

  /** The chunks put back together are the rows; each holds 1 to 200 rows. */
  lemma {:induction false} ChunksSpec(rows: seq<seq<string>>)
    ensures Concat(Chunks(rows)) == rows
    ensures forall k :: 0 <= k < |Chunks(rows)| ==> 1 <= |Chunks(rows)[k]| <= Chunk
    ensures |Chunks(rows)| == (|rows| + Chunk - 1) / Chunk
    decreases |rows|
  {
    if |rows| > Chunk {
      ChunksSpec(rows[Chunk..]);
      assert rows == rows[..Chunk] + rows[Chunk..];
    }
  }

  function ChunkCalls(rows: seq<seq<string>>): seq<SheetCall> {
    var chunks := Chunks(rows);
    seq(|chunks|, k requires 0 <= k < |chunks| => AppendRows(chunks[k]))
  }

  /** One chunk off the front of what is still to be sent. */
  lemma ChunkCallsStep(rows: seq<seq<string>>, i: nat)
    requires i < |rows|
    ensures var stop := if i + Chunk <= |rows| then i + Chunk else |rows|;
      ChunkCalls(rows[i..]) == [AppendRows(rows[i..stop])] + ChunkCalls(rows[stop..])
  {
    var stop := if i + Chunk <= |rows| then i + Chunk else |rows|;
    var rest := rows[i..];
    if |rest| > Chunk {
      assert rest[..Chunk] == rows[i..stop];
      assert rest[Chunk..] == rows[stop..];
    } else {
      assert rest == rows[i..stop];
      assert rows[stop..] == [];
    }
  }

  /** The chunk loop of `append_new_conversations`. */
  method AppendInChunks(ws: Worksheet, toAppend: seq<seq<string>>) returns (appended: nat)
    modifies ws
    ensures appended == |toAppend|
    ensures ws.values == old(ws.values) + toAppend
    ensures ws.calls == old(ws.calls) + ChunkCalls(toAppend)
  {
    appended := 0;
    var i := 0;
    while i < |toAppend|
      invariant appended == i <= |toAppend|
      invariant ws.values + toAppend[i..] == old(ws.values) + toAppend
      invariant ws.calls + ChunkCalls(toAppend[i..]) == old(ws.calls) + ChunkCalls(toAppend)
      decreases |toAppend| - i
    {
      var stop := if i + Chunk <= |toAppend| then i + Chunk else |toAppend|;
      var chunk := toAppend[i..stop];
      ChunkCallsStep(toAppend, i);
      assert toAppend[i..] == chunk + toAppend[stop..];
      ws.AppendMany(chunk);
      appended := appended + |chunk|;
      i := stop;
    }
    assert toAppend[i..] == [];
  }

  /** `append_new_conversations(ws, conversations)` */
  method AppendNewConversations(ws: Worksheet, conversations: seq<Row>) returns (appended: nat)
    modifies ws
    ensures appended == |ToAppend(conversations, ExistingIds(old(ws.values)))|
    ensures ws.values == old(ws.values) + ToAppend(conversations, ExistingIds(old(ws.values)))
    ensures ws.calls == old(ws.calls) + ChunkCalls(ToAppend(conversations, ExistingIds(old(ws.values))))
  {
    var existingIds := ExistingIds(ws.values);
    var toAppend: seq<seq<string>> := [];
    for k := 0 to |conversations|
      invariant toAppend == ToAppend(conversations[..k], existingIds)
    {
      assert conversations[..k + 1][..k] == conversations[..k];
      var c := conversations[k];
      if !(LinkKey in c) || c[LinkKey] == "" || c[LinkKey] in existingIds {
        continue;
      }
      toAppend := toAppend + [Project(GsheetHeaders, c)];
    }
    assert conversations[..|conversations|] == conversations;
    if toAppend == [] {
      return 0;
    }
    appended := AppendInChunks(ws, toAppend);
  }

  /** Running the export twice on the same conversations appends nothing
      the second time: every link the first run appended is then an
      existing id (the header row keeps the sheet non-empty). */
  lemma SecondRunAppendsNothing(values: seq<seq<string>>, conversations: seq<Row>)
    requires values != []
    ensures var after := values + ToAppend(conversations, ExistingIds(values));
      ToAppend(conversations, ExistingIds(after)) == []
  {
    var existing := ExistingIds(values);
    var added := ToAppend(conversations, existing);
    var after := values + added;
    ToAppendSpec(conversations, existing);
    assert existing <= ExistingIds(after) by {
      forall x | x in existing ensures x in ExistingIds(after) {
        var i :| 1 <= i < |values| && |values[i]| > 0 && values[i][0] != "" && values[i][0] == x;
        assert after[i] == values[i];
      }
    }
    forall i | 0 <= i < |conversations| && IsNew(conversations[i], existing)
      ensures !IsNew(conversations[i], ExistingIds(after))
    {
      var r := Project(GsheetHeaders, conversations[i]);
      assert r in added;
      var j :| 0 <= j < |added| && added[j] == r;
      assert after[|values| + j] == r;
      assert r[0] == conversations[i][LinkKey];
    }
    NothingNew(conversations, ExistingIds(after));
  }

  /** When no conversation is new, nothing is appended. */
  lemma {:induction false} NothingNew(conversations: seq<Row>, existing: set<string>)
    requires forall i :: 0 <= i < |conversations| ==> !IsNew(conversations[i], existing)
    ensures ToAppend(conversations, existing) == []
  {
    if conversations != [] {
      NothingNew(conversations[..|conversations| - 1], existing);
    }
  }

  // ---------------------------------------------------------------------
  // `main`

  datatype GsheetRun =
    | NoQuery          // the SQL file is missing or empty
    | NoResults        // the query failed or printed nothing
    | NothingParsed    // no line had nine fields
    | NoClient         // no usable Google credentials
    | Synced(appended: nat)

  /** What `main` sends to the sheet step: the parsed rows of a successful,
      non-empty query output. */
  function Conversations(outcome: Satori.RunOutcome): Option<seq<Row>> {
    if outcome.Completed? && outcome.returncode == 0 && outcome.stdout != "" then
      Some(Parse(Unaligned, GsheetHeaders, outcome.stdout))
    else None
  }

  /** `main()`: the single query attempt, the parse, then headers and the
      append, in that order. */
  method GsheetMain(queryFound: bool, outcome: Satori.RunOutcome, clientOk: bool, ws: Worksheet)
    returns (r: GsheetRun)
    modifies ws
    ensures !r.Synced? ==> ws.values == old(ws.values) && ws.calls == old(ws.calls)
    ensures r.Synced? <==> queryFound && clientOk && Conversations(outcome).Some? && Conversations(outcome).value != []
    ensures r.Synced? ==>
      var conversations := Conversations(outcome).value;
      var headed := WithHeaders(old(ws.values));
      var rows := ToAppend(conversations, ExistingIds(headed));
      r.appended == |rows| && ws.values == headed + rows &&
      ws.calls == old(ws.calls) + HeaderCalls(old(ws.values)) + ChunkCalls(rows)
  {
    if !queryFound {
      return NoQuery;
    }
    if !(outcome.Completed? && outcome.returncode == 0) || outcome.stdout == "" {
      return NoResults;
    }
    var conversations := ParsePsqlResults(Unaligned, GsheetHeaders, outcome.stdout);
    if conversations == [] {
      return NothingParsed;
    }
    if !clientOk {
      return NoClient;
    }
    EnsureHeaders(ws);
    var appended := AppendNewConversations(ws, conversations);
    r := Synced(appended);
  }
}
