/**
 * The pipe-separated warehouse output parsers (`parse_psql_results`).
 *
 * Five scripts read the text that `psql` prints for a query and turn each
 * data line into a dictionary by column position. They differ in two ways,
 * captured here by a `Layout` and a column list:
 *   - aligned output (the default psql table, with a header line, a dashed
 *     separator and a "(N rows)" footer) is filtered line by line against a
 *     header marker, and output of fewer than three lines gives no rows;
 *   - unaligned output (`-A -F '|' -t`) has no header or footer, so only
 *     blank lines are dropped.
 * A data line becomes a row only if it has at least as many `|`-separated
 * fields as there are columns; extra fields are ignored.
 */
module PsqlTable {
  import opened PyText

  /** A parsed record: column name to stripped field text (a Python dict). */
  type Row = map<string, string>

  datatype Layout = Aligned(headerMarker: string) | Unaligned

  /** Columns of `decagon_voice/voice_conversations_qa.py`. */
  const QaColumns: seq<string> := [
    "decagon_conversation_link", "five9_conversation_link", "zendesk_ticket_link",
    "routing_department", "skill", "abandoned", "created_at_est", "created_at_utc",
    "conversation_id"]

  /** Columns of `voice_conversations_qa_google.py` and `test_qa_flow.py`. */
  const QaSheetColumns: seq<string> := [
    "decagon_link", "zendesk_link", "five9_call_id", "decagon_routing",
    "actual_skill", "expected_skill", "is_match", "abandoned",
    "chat_created_ts_est", "chat_created_ts", "is_deflected", "conversation_id"]

  /** `HEADERS` of `voice_conversations_to_gsheet.py`: its parser's keys and its sheet header. */
  const GsheetHeaders: seq<string> := [
    "decagon_conversation_link", "five9_conversation_link", "zendesk_ticket_link",
    "routing_department", "skill", "abandoned", "created_at_est", "created_at_utc",
    "five9_session_id"]

  /** Columns of `voice_conversations_warehouse_clean.py`. */
  const WarehouseColumns: seq<string> := [
    "conversation_id", "conversation_url", "csat", "deflected", "summary",
    "created_at_utc", "created_at_est", "tags", "metadata"]

  /** The marker each aligned parser uses to recognise the header line. */
  const QaLayout: Layout := Aligned("decagon_conversation_link")
  const WarehouseLayout: Layout := Aligned("conversation_id")

  predicate Distinct<T(==)>(xs: seq<T>) {
    forall i, j :: 0 <= i < j < |xs| ==> xs[i] != xs[j]
  }

  /** The column lists have no repeated name, so no field overwrites another. */
  lemma ColumnsDistinct()
    ensures Distinct(QaColumns) && Distinct(QaSheetColumns)
    ensures Distinct(GsheetHeaders) && Distinct(WarehouseColumns)
    ensures |QaColumns| == 9 && |QaSheetColumns| == 12 && |GsheetHeaders| == 9 && |WarehouseColumns| == 9
    ensures QaSheetColumns[11] == "conversation_id"
  {
  }

  /** Whether the list comprehension / filter loop keeps `line`. */
  predicate IsDataLine(layout: Layout, line: string) {
    match layout
    case Unaligned => Strip(line) != ""
    case Aligned(marker) =>
      && Strip(line) != ""
      && !StartsWith(Strip(line), "(")
      && !Contains(line, "rows)")
      && !Contains(line, marker)
      && !Contains(line, "---")
  }

  /** `[part.strip() for part in line.split('|')]` */
  function Fields(line: string): (r: seq<string>)
    ensures |r| == |Split(line, '|')|
  {
    var parts := Split(line, '|');
    seq(|parts|, i requires 0 <= i < |parts| => Strip(parts[i]))
  }

  /** The dictionary literal `{keys[0]: vals[0], ...}`; a repeated key keeps its last value. */
  function Zip<V>(keys: seq<string>, vals: seq<V>): map<string, V>
    requires |keys| <= |vals|
  {
    if keys == [] then map[]
    else Zip(keys[..|keys| - 1], vals)[keys[|keys| - 1] := vals[|keys| - 1]]
  }

  lemma {:induction false} ZipSpec<V>(keys: seq<string>, vals: seq<V>)
    requires |keys| <= |vals| && Distinct(keys)
    ensures Zip(keys, vals).Keys == set k | k in keys
    ensures forall i :: 0 <= i < |keys| ==> Zip(keys, vals)[keys[i]] == vals[i]
  {
    if keys != [] {
      ZipSpec(keys[..|keys| - 1], vals);
    }
  }

  /** The sheet row for a record: `[c.get(h, '') for h in keys]`. */
  function Project(keys: seq<string>, conv: Row): seq<string> {
    seq(|keys|, i requires 0 <= i < |keys| => if keys[i] in conv then conv[keys[i]] else "")
  }

  /** The lines the parser looks at: `output.strip().split('\n')`. */
  function Lines(output: string): seq<string> {
    Split(Strip(output), '\n')
  }

  /** The lines the filter keeps, in order. */
  function DataLines(layout: Layout, lines: seq<string>): (r: seq<string>)
    ensures |r| <= |lines|
  {
    if lines == [] then []
    else
      var last := lines[|lines| - 1];
      DataLines(layout, lines[..|lines| - 1]) + (if IsDataLine(layout, last) then [last] else [])
  }

  /** The rows built from the data lines that have enough fields, in order. */
  function RowsOf(keys: seq<string>, lines: seq<string>): (r: seq<Row>)
    ensures |r| <= |lines|
  {
    if lines == [] then []
    else
      var last := lines[|lines| - 1];
      var fields := Fields(last);
      RowsOf(keys, lines[..|lines| - 1]) + (if |fields| >= |keys| then [Zip(keys, fields)] else [])
  }

  /** What `parse_psql_results` returns for `output`. */
  function Parse(layout: Layout, keys: seq<string>, output: string): seq<Row> {
    var lines := Lines(output);
    if layout.Aligned? && |lines| < 3 then [] else RowsOf(keys, DataLines(layout, lines))
  }

  /** The filter loop collecting `data_lines`. */
  method FilterDataLines(layout: Layout, lines: seq<string>) returns (dataLines: seq<string>)
    ensures dataLines == DataLines(layout, lines)
  {
    dataLines := [];
    for i := 0 to |lines|
      invariant dataLines == DataLines(layout, lines[..i])
    {
      assert lines[..i + 1][..i] == lines[..i];
      if IsDataLine(layout, lines[i]) {
        dataLines := dataLines + [lines[i]];
      }
    }
    assert lines[..|lines|] == lines;
  }

  /** The loop appending one dictionary per data line with enough fields. */
  method BuildRows(keys: seq<string>, dataLines: seq<string>) returns (rows: seq<Row>)
    ensures rows == RowsOf(keys, dataLines)
  {
    rows := [];
    for i := 0 to |dataLines|
      invariant rows == RowsOf(keys, dataLines[..i])
    {
      assert dataLines[..i + 1][..i] == dataLines[..i];
      var parts := Fields(dataLines[i]);
      if |parts| >= |keys| {
        rows := rows + [Zip(keys, parts)];
      }
    }
    assert dataLines[..|dataLines|] == dataLines;
  }

  /** `parse_psql_results` itself. */
  method ParsePsqlResults(layout: Layout, keys: seq<string>, output: string) returns (rows: seq<Row>)
    ensures rows == Parse(layout, keys, output)
  {
    var lines := Lines(output);
    if layout.Aligned? && |lines| < 3 {
      return [];
    }
    var dataLines := FilterDataLines(layout, lines);
    rows := BuildRows(keys, dataLines);
  }

  // ---------------------------------------------------------------------
  // What the parse result means

  /** A line that the filter keeps and that has enough fields. */
  predicate Parsable(layout: Layout, keys: seq<string>, line: string) {
    IsDataLine(layout, line) && |Fields(line)| >= |keys|
  }

  lemma {:induction false} DataLinesMembers(layout: Layout, lines: seq<string>)
    ensures forall l :: l in DataLines(layout, lines) <==> l in lines && IsDataLine(layout, l)
  {
    if lines != [] {
      DataLinesMembers(layout, lines[..|lines| - 1]);
      assert lines == lines[..|lines| - 1] + [lines[|lines| - 1]];
    }
  }

  lemma {:induction false} RowsOfMembers(keys: seq<string>, lines: seq<string>)
    ensures forall r :: r in RowsOf(keys, lines) <==>
      exists l :: l in lines && |Fields(l)| >= |keys| && r == Zip(keys, Fields(l))
  {
    if lines != [] {
      RowsOfMembers(keys, lines[..|lines| - 1]);
      assert lines == lines[..|lines| - 1] + [lines[|lines| - 1]];
    }
  }

  /** A row is produced exactly for each kept line with enough fields (when
      the output has the three lines an aligned table needs), never for
      anything else; there are never more rows than lines. */
  lemma ParseCharacterized(layout: Layout, keys: seq<string>, output: string)
    ensures |Parse(layout, keys, output)| <= |Lines(output)|
    ensures layout.Aligned? && |Lines(output)| < 3 ==> Parse(layout, keys, output) == []
    ensures forall r :: r in Parse(layout, keys, output) ==>
      exists l :: l in Lines(output) && Parsable(layout, keys, l) && r == Zip(keys, Fields(l))
    ensures layout.Unaligned? || |Lines(output)| >= 3 ==>
      forall l :: l in Lines(output) && Parsable(layout, keys, l) ==>
        Zip(keys, Fields(l)) in Parse(layout, keys, output)
  {
    var lines := Lines(output);
    var data := DataLines(layout, lines);
    var rows := Parse(layout, keys, output);
    DataLinesMembers(layout, lines);
    RowsOfMembers(keys, data);
    forall r | r in rows
      ensures exists l :: l in lines && Parsable(layout, keys, l) && r == Zip(keys, Fields(l))
    {
      var l :| l in data && |Fields(l)| >= |keys| && r == Zip(keys, Fields(l));
      assert l in lines && IsDataLine(layout, l);
    }
    if layout.Unaligned? || |lines| >= 3 {
      forall l | l in lines && Parsable(layout, keys, l)
        ensures Zip(keys, Fields(l)) in rows
      {
        assert l in data;
      }
    }
  }

  // ---------------------------------------------------------------------
  // Fields are pieces of their line

  lemma ContainsTrans(s: string, p: string, sub: string)
    requires Contains(s, p) && Contains(p, sub)
    ensures Contains(s, sub)
  {
    var a := ContainsAt(s, p);
    ContainsInside(s, a, a + |p|, sub);
  }

  lemma {:induction false} SplitFirstIsPrefix(s: string, sep: char)
    ensures Split(s, sep)[0] <= s
  {
    if s != [] {
      SplitFirstIsPrefix(s[1..], sep);
    }
  }

  lemma {:induction false} SplitPartsOccur(s: string, sep: char)
    ensures forall k :: 0 <= k < |Split(s, sep)| ==> Contains(s, Split(s, sep)[k])
  {
    if s != [] {
      SplitPartsOccur(s[1..], sep);
      var rest := Split(s[1..], sep);
      forall k | 0 <= k < |Split(s, sep)| ensures Contains(s, Split(s, sep)[k]) {
        var p := Split(s, sep)[k];
        if s[0] == sep {
          if k == 0 {
            assert p == "";
          } else {
            assert p == rest[k - 1];
            assert s[1..|s|] == s[1..];
            ContainsInside(s, 1, |s|, p);
          }
        } else {
          if k == 0 {
            SplitFirstIsPrefix(s[1..], sep);
            assert p == [s[0]] + rest[0];
            assert p <= s;
          } else {
            assert p == rest[k];
            assert s[1..|s|] == s[1..];
            ContainsInside(s, 1, |s|, p);
          }
        }
      }
    }
  }

  lemma StripOccurs(s: string)
    ensures Contains(s, Strip(s))
  {
    StripSpec(s);
    LStripSpec(s);
    var l := LStrip(s);
    var r := Strip(s);
    assert OccursAt(s, r, |s| - |l|) by {
      assert r == l[..|r|];
      assert l == s[|s| - |l|..];
    }
    OccursContains(s, r, |s| - |l|);
  }

  /** Every field of a line is a piece of the line. */
  lemma FieldsOccur(line: string)
    ensures forall k :: 0 <= k < |Fields(line)| ==> Contains(line, Fields(line)[k])
  {
    var parts := Split(line, '|');
    SplitPartsOccur(line, '|');
    forall k | 0 <= k < |parts| ensures Contains(line, Fields(line)[k]) {
      StripOccurs(parts[k]);
      ContainsTrans(line, parts[k], Strip(parts[k]));
    }
  }

  /** The header filter works on the whole line, so no field of any parsed
      row can mention the header marker, and no field can contain the
      footer or separator texts: a record whose own data contains the marker
      is dropped, not parsed. */
  lemma MarkerNeverInFields(keys: seq<string>, output: string, marker: string)
    requires Distinct(keys)
    ensures forall r, k :: r in Parse(Aligned(marker), keys, output) && k in r ==>
      !Contains(r[k], marker) && !Contains(r[k], "rows)") && !Contains(r[k], "---")
  {
    var layout := Aligned(marker);
    ParseCharacterized(layout, keys, output);
    forall r, k | r in Parse(layout, keys, output) && k in r
      ensures !Contains(r[k], marker) && !Contains(r[k], "rows)") && !Contains(r[k], "---")
    {
      var l :| l in Lines(output) && Parsable(layout, keys, l) && r == Zip(keys, Fields(l));
      ZipSpec(keys, Fields(l));
      var i :| 0 <= i < |keys| && keys[i] == k;
      FieldsOccur(l);
      assert Contains(l, r[k]);
      if Contains(r[k], marker) { ContainsTrans(l, r[k], marker); }
      if Contains(r[k], "rows)") { ContainsTrans(l, r[k], "rows)"); }
      if Contains(r[k], "---") { ContainsTrans(l, r[k], "---"); }
    }
  }

  /** The dictionary built from one line, by field position. */
  lemma RowOfLine(keys: seq<string>, l: string)
    requires Distinct(keys) && |Fields(l)| >= |keys|
    ensures Zip(keys, Fields(l)).Keys == (set k | k in keys)
    ensures forall i :: 0 <= i < |keys| ==> Zip(keys, Fields(l))[keys[i]] == Strip(Split(l, '|')[i])
  {
    var fields := Fields(l);
    ZipSpec(keys, fields);
    forall i | 0 <= i < |keys| ensures Zip(keys, fields)[keys[i]] == Strip(Split(l, '|')[i]) {
      assert fields[i] == Strip(Split(l, '|')[i]);
    }
  }

  /** Every parsed row has exactly the parser's columns, each holding the
      stripped text of the field at that position. */
  lemma ParsedRowShape(layout: Layout, keys: seq<string>, output: string)
    requires Distinct(keys)
    ensures forall r :: r in Parse(layout, keys, output) ==>
      r.Keys == (set k | k in keys) &&
      exists l :: l in Lines(output) && Parsable(layout, keys, l) &&
        forall i :: 0 <= i < |keys| ==> r[keys[i]] == Strip(Split(l, '|')[i])
  {
    ParseCharacterized(layout, keys, output);
    forall r | r in Parse(layout, keys, output)
      ensures r.Keys == (set k | k in keys) &&
        exists l :: l in Lines(output) && Parsable(layout, keys, l) &&
          forall i :: 0 <= i < |keys| ==> r[keys[i]] == Strip(Split(l, '|')[i])
    {
      var l :| l in Lines(output) && Parsable(layout, keys, l) && r == Zip(keys, Fields(l));
      RowOfLine(keys, l);
    }
  }
}
