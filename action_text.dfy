/**
 * The text functions of the corporate-action scrapers: the action-type
 * classifier, the ratio extractor, the date normaliser and the parser of
 * one action line. The three scraper scripts carry the same four functions
 * character for character, so they are modelled once here. Their regular
 * expressions are patterns of `RegexScan`.
 */
module ActionText {
  import opened Options
  import opened PyText
  import opened RegexScan

  // ---------------------------------------------------------------------
  // classify_action_type

  /** Words separated by `\s+`, as in `stock\s+split`. */
  function Words(ws: seq<string>): (p: Pattern)
    decreases |ws|
  {
    if ws == [] then []
    else if |ws| == 1 then [One(Text(ws[0]))]
    else [One(Text(ws[0])), One(Run(Space, 1, 0))] + Words(ws[1..])
  }

  /** `\b` words `\b`: one alternative of a keyword pattern. */
  function Keyword(ws: seq<string>): Pattern {
    [One(Edge)] + Words(ws) + [One(Edge)]
  }

  /** The action types in the order the classifier tries them. */
  const ClassNames: seq<string> := [
    "Consolidation", "Stock Split", "Merger", "Spinoff", "Dividend", "Acquisition",
    "Liquidation", "Rights Distribution", "Reorganization", "Redemption", "Name Change"
  ]

  /** The alternatives of each type's pattern, in the same order. The
      spin-off pattern `spin-?off|spinoff` names "spinoff" twice. */
  const ClassPatterns: seq<seq<Pattern>> := [
    [Keyword(["consolidation"])],
    [Keyword(["stock", "split"]), Keyword(["forward", "split"])],
    [Keyword(["merger"])],
    [Keyword(["spin-off"]), Keyword(["spinoff"]), Keyword(["spinoff"])],
    [Keyword(["dividend"])],
    [Keyword(["acquisition"])],
    [Keyword(["liquidation"])],
    [Keyword(["rights", "distribution"])],
    [Keyword(["reorganization"])],
    [Keyword(["redemption"])],
    [Keyword(["name", "change"])]
  ]

  /** `re.search(r'(?:alt1|alt2|...)', s)` succeeds. */
  predicate Mentions(s: string, alts: seq<Pattern>) {
    exists a :: 0 <= a < |alts| && SearchPattern(alts[a], s).Some?
  }

  /** An alternation occurs exactly when one of its alternatives matches at
      some position. */
  lemma MentionsSpec(s: string, alts: seq<Pattern>)
    ensures Mentions(s, alts) <==> exists a :: 0 <= a < |alts| && !NoMatch(alts[a], s)
  {
    forall a | 0 <= a < |alts| ensures SearchPattern(alts[a], s).Some? <==> !NoMatch(alts[a], s) {
      SearchPatternSpec(alts[a], s);
    }
  }

  /** The if/elif chain from entry `k` of `table` on: the index of the
      first entry whose pattern occurs in `t`. */
  function FirstMentioned(t: string, table: seq<seq<Pattern>>, k: nat): (r: Option<nat>)
    ensures r.Some? ==> k <= r.value < |table|
    decreases |table| - k
  {
    if k >= |table| then None
    else if Mentions(t, table[k]) then Some(k)
    else FirstMentioned(t, table, k + 1)
  }

  /** The chain stops at an entry whose pattern occurs, after only entries
      whose patterns do not; it runs out exactly when no pattern occurs. */
  lemma {:induction false} FirstMentionedSpec(t: string, table: seq<seq<Pattern>>, k0: nat)
    ensures FirstMentioned(t, table, k0).Some? ==>
      Mentions(t, table[FirstMentioned(t, table, k0).value]) &&
      forall j :: k0 <= j < FirstMentioned(t, table, k0).value ==> !Mentions(t, table[j])
    ensures FirstMentioned(t, table, k0).None? <==> forall j :: k0 <= j < |table| ==> !Mentions(t, table[j])
    decreases |table| - k0
  {
    if k0 < |table| && !Mentions(t, table[k0]) {
      FirstMentionedSpec(t, table, k0 + 1);
    }
  }

  /** `classify_action_type(text)`: the chain over the lower-cased text. */
  function ClassifyActionType(text: string): string {
    match FirstMentioned(Lower(text), ClassPatterns, 0)
    case Some(k) => if k < |ClassNames| then ClassNames[k] else "Other"
    case None => "Other"
  }

  /** No type is named `Other`, and every type has its pattern. */
  lemma ClassTable()
    ensures |ClassNames| == |ClassPatterns|
    ensures forall k :: 0 <= k < |ClassNames| ==> ClassNames[k] != "Other"
  {
  }

  /** The classifier returns the name of the first type, in priority
      order, whose pattern occurs in the lower-cased text, and `Other`
      exactly when none does. */
  lemma ClassifyByPriority(text: string)
    ensures ClassifyActionType(text) == "Other" <==>
      forall j :: 0 <= j < |ClassPatterns| ==> !Mentions(Lower(text), ClassPatterns[j])
    ensures ClassifyActionType(text) != "Other" ==>
      exists k :: 0 <= k < |ClassNames| && ClassifyActionType(text) == ClassNames[k] &&
        Mentions(Lower(text), ClassPatterns[k]) &&
        forall j :: 0 <= j < k ==> !Mentions(Lower(text), ClassPatterns[j])
  {
    FirstMentionedSpec(Lower(text), ClassPatterns, 0);
    ClassTable();
  }

  /** Lower-casing is idempotent. */
  lemma LowerIdempotent(s: string)
    ensures Lower(Lower(s)) == Lower(s)
  {
  }

  /** The classifier ignores case. */
  lemma ClassifyIgnoresCase(text: string)
    ensures ClassifyActionType(Lower(text)) == ClassifyActionType(text)
  {
    LowerIdempotent(text);
  }

  // ---------------------------------------------------------------------
  // extract_ratio

  /** `\d+(?:\.\d+)?` */
  const NumberPat: Pattern := [One(Run(Digit, 1, 0)), Maybe([Text("."), Run(Digit, 1, 0)])]

  /** What stands between the two numbers of each ratio pattern, in order:
      `\s+for\s+`, `:`, `\s*-\s*for\s*-\s*` and `\s+to\s+`, the words
      matched without regard to case. */
  const RatioJoins: seq<Pattern> := [
    [One(Run(Space, 1, 0)), One(TextNoCase("for")), One(Run(Space, 1, 0))],
    [One(Text(":"))],
    [One(Run(Space, 0, 0)), One(Text("-")), One(Run(Space, 0, 0)), One(TextNoCase("for")),
     One(Run(Space, 0, 0)), One(Text("-")), One(Run(Space, 0, 0))],
    [One(Run(Space, 1, 0)), One(TextNoCase("to")), One(Run(Space, 1, 0))]
  ]

  /** A number, the joining text and a number. */
  function RatioPattern(join: Pattern): Pattern {
    NumberPat + (join + NumberPat)
  }

  const RatioPatterns: seq<Pattern> := [
    RatioPattern(RatioJoins[0]), RatioPattern(RatioJoins[1]),
    RatioPattern(RatioJoins[2]), RatioPattern(RatioJoins[3])
  ]

  /** `extract_ratio(text)`: the leftmost match of the first ratio pattern
      that matches anywhere, or `""`. */
  function ExtractRatio(text: string): (r: string) {
    match FirstOf(RatioPatterns, text)
    case Some((_, i, e)) => text[i..e]
    case None => ""
  }

  /** A number match begins and ends with a digit. */
  lemma NumberDigits(s: string, i: nat)
    requires Match(NumberPat, s, i).Some?
    ensures var e := Match(NumberPat, s, i).value;
      i < e && IsDigit(s[i]) && IsDigit(s[e - 1])
  {
    var run: Pattern := [One(Run(Digit, 1, 0))];
    var g := [Text("."), Run(Digit, 1, 0)];
    var opt: Pattern := [Maybe(g)];
    assert NumberPat == run + opt;
    MatchConcat(run, opt, s, i);
    RunMatch(Digit, 1, 0, s, i);
    var m := Match(run, s, i).value;
    assert IsDigit(s[m - 1]);
    var e := Match(opt, s, m).value;
    assert opt[1..] == [];
    if MatchAtoms(g, s, m).Some? {
      var d := MatchAtom(Text("."), s, m).value;
      assert g[1..][1..] == [];
      assert MatchAtoms(g[1..], s, d) == MatchAtom(Run(Digit, 1, 0), s, d);
      assert e == MatchAtom(Run(Digit, 1, 0), s, d).value;
    }
  }

  /** A ratio match begins and ends with a digit. */
  lemma RatioDigits(join: Pattern, s: string, i: nat)
    requires Match(RatioPattern(join), s, i).Some?
    ensures var e := Match(RatioPattern(join), s, i).value;
      i < e && IsDigit(s[i]) && IsDigit(s[e - 1])
  {
    MatchConcat(NumberPat, join + NumberPat, s, i);
    NumberDigits(s, i);
    RatioTail(join, s, Match(NumberPat, s, i).value);
  }

  /** The joining text and second number end with a digit. */
  lemma RatioTail(join: Pattern, s: string, m: nat)
    requires Match(join + NumberPat, s, m).Some?
    ensures var e := Match(join + NumberPat, s, m).value;
      m < e && IsDigit(s[e - 1])
  {
    MatchConcat(join, NumberPat, s, m);
    NumberDigits(s, Match(join, s, m).value);
  }

  /** The ratio is empty exactly when no pattern matches anywhere;
      otherwise it is the leftmost match of the first pattern that matches,
      every earlier pattern matching nowhere. */
  lemma ExtractRatioSpec(text: string)
    ensures ExtractRatio(text) == "" <==>
      forall k :: 0 <= k < |RatioPatterns| ==> NoMatch(RatioPatterns[k], text)
    ensures ExtractRatio(text) != "" ==>
      exists k, i: nat :: 0 <= k < |RatioPatterns| && Leftmost(RatioPatterns[k], text, i) &&
        ExtractRatio(text) == text[i..Match(RatioPatterns[k], text, i).value] &&
        forall q :: 0 <= q < k ==> NoMatch(RatioPatterns[q], text)
  {
    FirstOfSpec(RatioPatterns, text, 0);
    forall k | 0 <= k < |RatioPatterns| {
      SearchPatternSpec(RatioPatterns[k], text);
    }
    match FirstOf(RatioPatterns, text)
    case None =>
    case Some((k, i, e)) =>
      RatioDigits(RatioJoins[k], text, i);
  }

  /** A non-empty ratio is a piece of the text that begins and ends with a
      digit. */
  lemma RatioShape(text: string)
    ensures var r := ExtractRatio(text);
      r != "" ==> Contains(text, r) && IsDigit(r[0]) && IsDigit(r[|r| - 1])
  {
    match FirstOf(RatioPatterns, text)
    case None =>
    case Some((k, i, e)) =>
      RatioDigits(RatioJoins[k], text, i);
      var r := text[i..e];
      assert r[0] == text[i] && r[|r| - 1] == text[e - 1];
      assert OccursAt(text, r, i);
      OccursContains(text, r, i);
  }

  // ---------------------------------------------------------------------
  // normalize_date

  /** `re.sub(r'(\d+)(?:st|nd|rd|th)\b', r'\1', s)`: an ordinal suffix
      right after digits and ending a word is dropped. */
  function StripOrdinals(s: string): (r: string)
    ensures |r| <= |s|
    decreases |s|
  {
    if s == [] then []
    else
      var d := Span(s, 0, Digit);
      if d > 0 && d + 2 <= |s| && s[d..d + 2] in ["st", "nd", "rd", "th"] && Boundary(s, d + 2)
      then s[..d] + StripOrdinals(s[d + 2..])
      else [s[0]] + StripOrdinals(s[1..])
  }

  /** The groups of a date match: month word, day and year. */
  datatype DateGroups = DateGroups(month: string, day: string, year: string)

  predicate AllDigits(s: string) { forall i :: 0 <= i < |s| ==> IsDigit(s[i]) }

  const MonthPat: Pattern := [One(Run(Word, 1, 0))]
  const GapPat: Pattern := [One(Run(Space, 1, 0))]
  const DayPat: Pattern := [One(Run(Digit, 1, 2))]
  const YearPat: Pattern := [One(Run(Digit, 4, 4))]

  /** `,?\s+` with `comma`, `\s+` without. */
  function AfterDay(comma: bool): Pattern {
    if comma then [Maybe([Text(",")]), One(Run(Space, 1, 0))] else GapPat
  }

  /** A match at `i` of `(\w+)\s+(\d{1,2}),?\s+(\d{4})` (with `comma`) or
      of `(\w+)\s+(\d{1,2})\s+(\d{4})` (without), with its groups. */
  function DateAt(comma: bool, s: string, i: nat): (r: Option<DateGroups>) {
    var a :- Match(MonthPat, s, i);
    var b :- Match(GapPat, s, a);
    var d :- Match(DayPat, s, b);
    var c :- Match(AfterDay(comma), s, d);
    var e :- Match(YearPat, s, c);
    Some(DateGroups(s[i..a], s[b..d], s[c..e]))
  }

  /** A run of digits matched from `i` is a slice of digits of the
      matched length. */
  lemma DigitRun(min: nat, max: nat, s: string, i: nat)
    requires Match([One(Run(Digit, min, max))], s, i).Some?
    ensures var e := Match([One(Run(Digit, min, max))], s, i).value;
      min <= e - i && (max > 0 ==> e - i <= max) && AllDigits(s[i..e])
  {
    RunMatch(Digit, min, max, s, i);
    var e := Match([One(Run(Digit, min, max))], s, i).value;
    forall k | 0 <= k < e - i ensures IsDigit(s[i..e][k]) {
      assert s[i..e][k] == s[i + k];
    }
  }

  /** The day group is one or two digits and the year group four. */
  lemma DateAtShape(comma: bool, s: string, i: nat)
    requires DateAt(comma, s, i).Some?
    ensures 1 <= |DateAt(comma, s, i).value.day| <= 2 && AllDigits(DateAt(comma, s, i).value.day)
    ensures |DateAt(comma, s, i).value.year| == 4 && AllDigits(DateAt(comma, s, i).value.year)
  {
    var a := Match(MonthPat, s, i).value;
    var b := Match(GapPat, s, a).value;
    var d := Match(DayPat, s, b).value;
    var c := Match(AfterDay(comma), s, d).value;
    var e := Match(YearPat, s, c).value;
    assert DateAt(comma, s, i).value == DateGroups(s[i..a], s[b..d], s[c..e]);
    DigitRun(1, 2, s, b);
    DigitRun(4, 4, s, c);
  }

  /** The search for a date pattern. */
  function DateFinder(comma: bool, s: string): (nat -> Option<DateGroups>) {
    (j: nat) => DateAt(comma, s, j)
  }

  /** The month names and their numbers. */
  const Months: seq<(string, string)> := [
    ("january", "01"), ("february", "02"), ("march", "03"), ("april", "04"),
    ("may", "05"), ("june", "06"), ("july", "07"), ("august", "08"),
    ("september", "09"), ("october", "10"), ("november", "11"), ("december", "12")
  ]

  /** `months[name]` when `name in months`. */
  function MonthNumber(name: string, k: nat := 0): (r: Option<string>)
    ensures r.Some? ==> exists j :: k <= j < |Months| && Months[j] == (name, r.value)
    ensures r.None? ==> forall j :: k <= j < |Months| ==> Months[j].0 != name
    decreases |Months| - k
  {
    if k >= |Months| then None
    else if Months[k].0 == name then Some(Months[k].1)
    else MonthNumber(name, k + 1)
  }

  /** `s.zfill(2)` for one or two digits. */
  function ZFill2(s: string): string {
    if |s| < 2 then "0" + s else s
  }

  /** One turn of the pattern loop: the leftmost match of the pattern,
      formatted, when its month is a known name. */
  function TryDate(comma: bool, clean: string): (r: Option<string>) {
    var m := Search(DateFinder(comma, clean), 0, |clean|);
    if m.None? then None
    else
      var g := m.value.1;
      match MonthNumber(Lower(g.month))
      case None => None
      case Some(mm) => Some(g.year + "-" + mm + "-" + ZFill2(g.day))
  }

  /** `normalize_date(date_str)` */
  function NormalizeDate(dateStr: string): (r: string) {
    var clean := StripOrdinals(dateStr);
    match TryDate(true, clean)
    case Some(iso) => iso
    case None =>
      match TryDate(false, clean)
      case Some(iso) => iso
      case None => dateStr
  }

  /** `YYYY-MM-DD` with a month number from the table. */
  predicate IsoDate(r: string) {
    |r| == 10 && AllDigits(r[..4]) && r[4] == '-' && r[7] == '-' && AllDigits(r[8..]) &&
    exists j :: 0 <= j < |Months| && r[5..7] == Months[j].1
  }

  /** The month numbers are two digits each. */
  lemma MonthNumbersDigits()
    ensures forall j :: 0 <= j < |Months| ==> |Months[j].1| == 2 && AllDigits(Months[j].1)
  {
  }

  /** A four-digit year, a month number and a one- or two-digit day make a
      `YYYY-MM-DD` date. */
  lemma FormatIso(year: string, mm: string, day: string, j: nat)
    requires |year| == 4 && AllDigits(year) && 1 <= |day| <= 2 && AllDigits(day)
    requires j < |Months| && mm == Months[j].1
    ensures IsoDate(year + "-" + mm + "-" + ZFill2(day))
  {
    MonthNumbersDigits();
    var r := year + "-" + mm + "-" + ZFill2(day);
    assert r[..4] == year;
    assert r[5..7] == mm;
    assert r[8..] == ZFill2(day);
  }

  /** What one pattern turn produces is a `YYYY-MM-DD` date. */
  lemma TryDateIso(comma: bool, clean: string)
    ensures TryDate(comma, clean).Some? ==> IsoDate(TryDate(comma, clean).value)
  {
    match Search(DateFinder(comma, clean), 0, |clean|)
    case None =>
    case Some((i, g)) =>
      assert DateFinder(comma, clean)(i) == DateAt(comma, clean, i);
      DateAtShape(comma, clean, i);
      match MonthNumber(Lower(g.month))
      case None =>
      case Some(mm) =>
        var j :| 0 <= j < |Months| && Months[j] == (Lower(g.month), mm);
        FormatIso(g.year, mm, g.day, j);
  }

  /** `normalize_date` returns a `YYYY-MM-DD` date or its input unchanged. */
  lemma NormalizeDateShape(dateStr: string)
    ensures NormalizeDate(dateStr) == dateStr || IsoDate(NormalizeDate(dateStr))
  {
    var clean := StripOrdinals(dateStr);
    TryDateIso(true, clean);
    TryDateIso(false, clean);
  }

  /** A string of digits and hyphens holds no ordinal suffix. */
  lemma {:induction false} StripOrdinalsNoLetters(s: string)
    requires forall i :: 0 <= i < |s| ==> IsDigit(s[i]) || s[i] == '-'
    ensures StripOrdinals(s) == s
    decreases |s|
  {
    if s != [] {
      var d := Span(s, 0, Digit);
      if d > 0 && d + 2 <= |s| {
        assert s[d] == '-';
        assert s[d..d + 2][0] == '-';
      }
      StripOrdinalsNoLetters(s[1..]);
    }
  }

  /** Without whitespace there is nothing for the date patterns to match. */
  lemma NoSpaceNoDate(comma: bool, s: string)
    requires NoSpace(s)
    ensures TryDate(comma, s).None?
  {
    forall j: nat ensures DateFinder(comma, s)(j).None? {
      var a := Match(MonthPat, s, j);
      if a.Some? && Match(GapPat, s, a.value).Some? {
        RunMatch(Space, 1, 0, s, a.value);
      }
    }
  }

  /** Normalising a normalised date changes nothing. */
  lemma NormalizeDateIdempotent(dateStr: string)
    ensures NormalizeDate(NormalizeDate(dateStr)) == NormalizeDate(dateStr)
  {
    var r := NormalizeDate(dateStr);
    NormalizeDateShape(dateStr);
    if r != dateStr {
      MonthNumbersDigits();
      var j :| 0 <= j < |Months| && r[5..7] == Months[j].1;
      forall i | 0 <= i < |r| ensures IsDigit(r[i]) || r[i] == '-' {
        if i < 4 {
          assert r[..4][i] == r[i];
        } else if 5 <= i < 7 {
          assert Months[j].1[i - 5] == r[i];
        } else if i >= 8 {
          assert r[8..][i - 8] == r[i];
        }
      }
      StripOrdinalsNoLetters(r);
      NoSpaceNoDate(true, r);
      NoSpaceNoDate(false, r);
    }
  }

  // ---------------------------------------------------------------------
  // parse_single_action

  /** The position of the first `(` of `t`, or `|t|` when there is none. */
  function FirstParen(t: string, k: nat := 0): (p: nat)
    requires k <= |t|
    ensures k <= p <= |t| && (p < |t| ==> t[p] == '(')
    ensures forall j :: k <= j < p ==> t[j] != '('
    decreases |t| - k
  {
    if k == |t| || t[k] == '(' then k else FirstParen(t, k + 1)
  }

  /** `[A-Z]{1,6}(?:\.[A-Z])?` */
  const TickerPat: Pattern := [One(Run(Upper, 1, 6)), Maybe([Text("."), Run(Upper, 1, 1)])]

  /** The text of a head pattern between the company group and the
      ticker group, and after the ticker group: `\s*\(\s*` and
      `\s*\)\s*performed`; `\s*\([^)]*\)\s*\(\s*` and the same; `\s*\(\s*`
      and `\s*\)`. */
  const Heads: seq<(Pattern, Pattern)> := [
    ([One(Run(Space, 0, 0)), One(Text("(")), One(Run(Space, 0, 0))],
     [One(Run(Space, 0, 0)), One(Text(")")), One(Run(Space, 0, 0)), One(Text("performed"))]),
    ([One(Run(Space, 0, 0)), One(Text("(")), One(Run(Not(')'), 0, 0)), One(Text(")")),
      One(Run(Space, 0, 0)), One(Text("(")), One(Run(Space, 0, 0))],
     [One(Run(Space, 0, 0)), One(Text(")")), One(Run(Space, 0, 0)), One(Text("performed"))]),
    ([One(Run(Space, 0, 0)), One(Text("(")), One(Run(Space, 0, 0))],
     [One(Run(Space, 0, 0)), One(Text(")"))])
  ]

  /** Head pattern `h` matched after a company group ending at `q`: the
      ticker group. */
  function HeadAt(h: (Pattern, Pattern), t: string, q: nat): (r: Option<string>) {
    var b :- Match(h.0, t, q);
    var c :- Match(TickerPat, t, b);
    var _ :- Match(h.1, t, c);
    Some(t[b..c])
  }

  function HeadFinder(h: (Pattern, Pattern), t: string): (nat -> Option<string>) {
    (q: nat) => HeadAt(h, t, q)
  }

  /** `re.search('^([^(]+?)' + head, t)`: the lazy company group is the
      shortest non-empty prefix free of `(` after which the rest of the
      pattern matches; the result is its end and the ticker group. */
  function MatchHead(h: (Pattern, Pattern), t: string): (r: Option<(nat, string)>)
    ensures r.Some? ==> 1 <= r.value.0 <= FirstParen(t) && HeadAt(h, t, r.value.0) == Some(r.value.1)
  {
    var r := Search(HeadFinder(h, t), 1, FirstParen(t));
    if r.Some? then
      assert HeadFinder(h, t)(r.value.0) == HeadAt(h, t, r.value.0);
      r
    else None
  }

  /** What each head pattern gives on `t`, in order. */
  function HeadResults(t: string): (r: seq<Option<(nat, string)>>)
    ensures |r| == |Heads| && forall k :: 0 <= k < |Heads| ==> r[k] == MatchHead(Heads[k], t)
  {
    [MatchHead(Heads[0], t), MatchHead(Heads[1], t), MatchHead(Heads[2], t)]
  }

  /** The head-pattern loop: the first head pattern that matches. */
  function FirstHead(t: string): (r: Option<(nat, string)>)
    ensures r.Some? ==> 1 <= r.value.0 <= FirstParen(t)
  {
    FirstSomeSpec(HeadResults(t), 0);
    FirstSome(HeadResults(t))
  }

  /** `re.search(r'\(([A-Z]{1,6}(?:\.[A-Z])?)\)', t)` at `j`: the group. */
  function BareTickerAt(t: string, j: nat): (r: Option<string>) {
    var b :- Match([One(Text("("))], t, j);
    var c :- Match(TickerPat, t, b);
    var _ :- Match([One(Text(")"))], t, c);
    Some(t[b..c])
  }

  function BareTickerFinder(t: string): (nat -> Option<string>) {
    (j: nat) => BareTickerAt(t, j)
  }

  /** `(?:\s+performed|\s+\()` matches at `q`. */
  function CompanyStopAt(t: string, q: nat): (r: Option<nat>) {
    if Match([One(Run(Space, 1, 0)), One(Text("performed"))], t, q).Some? ||
       Match([One(Run(Space, 1, 0)), One(Text("("))], t, q).Some?
    then Some(q) else None
  }

  function CompanyStopFinder(t: string): (nat -> Option<nat>) {
    (q: nat) => CompanyStopAt(t, q)
  }

  /** `re.search(r'^([^(]+?)(?:\s+performed|\s+\()', t)`: the end of the
      group. */
  function FallbackCompanyEnd(t: string): (r: Option<nat>)
    ensures r.Some? ==> 1 <= r.value <= FirstParen(t)
  {
    var r := Search(CompanyStopFinder(t), 1, FirstParen(t));
    if r.Some? then Some(r.value.0) else None
  }

  /** `re.sub(p + '$', '', s)` for a pattern `p` that matches at most once
      before the end: `s` up to the leftmost position from which `p`
      matches to the end. */
  function EndsAt(p: Pattern, s: string, j: nat): (r: Option<nat>) {
    if Match(p, s, j) == Some(|s|) then Some(j) else None
  }

  function EndFinder(p: Pattern, s: string): (nat -> Option<nat>) {
    (j: nat) => EndsAt(p, s, j)
  }

  /** `\s*\([^)]*\)\s*` */
  const ParenTailPat: Pattern :=
    [One(Run(Space, 0, 0)), One(Text("(")), One(Run(Not(')'), 0, 0)), One(Text(")")), One(Run(Space, 0, 0))]

  /** `re.sub(r'\s*\([^)]*\)\s*$', '', company)` */
  function DropParenTail(company: string): (r: string) {
    match Search(EndFinder(ParenTailPat, company), 0, |company|)
    case Some((j, _)) => company[..j]
    case None => company
  }

  /** The corporate suffixes, in the order of the alternation. */
  const Suffixes: seq<string> := ["Inc", "Corp", "Ltd", "LLC", "Co"]

  /** `\s+` suffix `\.*` */
  function SuffixPat(w: string): Pattern {
    [One(Run(Space, 1, 0)), One(Text(w)), One(Run(Just('.'), 0, 0))]
  }

  /** The number of the first suffix, from number `k` on, with which the
      suffix pattern matches from `j` to the end. */
  function SuffixAt(s: string, j: nat, k: nat := 0): (r: Option<nat>)
    ensures r.Some? ==> k <= r.value < |Suffixes| && Match(SuffixPat(Suffixes[r.value]), s, j) == Some(|s|)
    ensures r.Some? ==> forall q :: k <= q < r.value ==> Match(SuffixPat(Suffixes[q]), s, j) != Some(|s|)
    ensures r.None? ==> forall q :: k <= q < |Suffixes| ==> Match(SuffixPat(Suffixes[q]), s, j) != Some(|s|)
    decreases |Suffixes| - k
  {
    if k >= |Suffixes| then None
    else if Match(SuffixPat(Suffixes[k]), s, j) == Some(|s|) then Some(k)
    else SuffixAt(s, j, k + 1)
  }

  function SuffixFinder(s: string): (nat -> Option<nat>) {
    (j: nat) => SuffixAt(s, j)
  }

  /** `re.sub(r'\s+(Inc|Corp|Ltd|LLC|Co)\.*$', r' \1', company)` */
  function FixSuffix(company: string): (r: string) {
    match Search(SuffixFinder(company), 0, |company|)
    case Some((j, q)) => company[..j] + " " + Suffixes[q]
    case None => company
  }

  /** A parsed corporate action. */
  datatype Action = Action(date: string, company: string, ticker: string,
                           actionType: string, ratio: string, details: string)

  /** The text as the parser sees it: `re.sub(r'\s+', ' ', text).strip()`. */
  function CleanText(text: string): string {
    Strip(CollapseSpaces(text))
  }

  /** The company after the head-pattern loop and the company fallback. */
  function FoundCompany(t: string): string {
    var company := match FirstHead(t)
      case Some((q, _)) => Strip(t[..q])
      case None => "";
    if company != "" then company
    else match FallbackCompanyEnd(t)
      case Some(q) => Strip(t[..q])
      case None => ""
  }

  /** The ticker after the head-pattern loop and the ticker fallback. */
  function FoundTicker(t: string): string {
    var ticker := match FirstHead(t)
      case Some((_, tk)) => Strip(tk)
      case None => "";
    if ticker != "" then ticker
    else match Search(BareTickerFinder(t), 0, |t|)
      case Some((_, tk)) => tk
      case None => ""
  }

  /** The company name after the clean-up of a non-empty name. */
  function CleanCompany(company: string): string {
    if company == "" then "" else Strip(FixSuffix(DropParenTail(company)))
  }

  /** `parse_single_action(text, date)` */
  function ParseAction(text: string, date: string): (r: Option<Action>) {
    var t := CleanText(text);
    var company := CleanCompany(FoundCompany(t));
    if company != "" && |company| > 1 then
      Some(Action(date, company, FoundTicker(t), ClassifyActionType(t), ExtractRatio(t), t))
    else None
  }

  /** The search part of `parse_single_action`: the head patterns in
      order, the first that matches giving company and ticker; then the
      ticker fallback and the company fallback. */
  method FindCompanyAndTicker(t: string) returns (company: string, ticker: string)
    ensures company == FoundCompany(t) && ticker == FoundTicker(t)
  {
    company := "";
    ticker := "";
    for k := 0 to |Heads|
      invariant FirstSome(HeadResults(t), k) == FirstHead(t) && company == "" && ticker == ""
    {
      var m := MatchHead(Heads[k], t);
      if m.Some? {
        company := Strip(t[..m.value.0]);
        ticker := Strip(m.value.1);
        break;
      }
    }
    assert (company, ticker) == match FirstHead(t)
      case Some((q, tk)) => (Strip(t[..q]), Strip(tk))
      case None => ("", "");
    if ticker == "" {
      var tm := Search(BareTickerFinder(t), 0, |t|);
      if tm.Some? {
        ticker := tm.value.1;
      }
    }
    if company == "" {
      var cm := FallbackCompanyEnd(t);
      if cm.Some? {
        company := Strip(t[..cm.value]);
      }
    }
  }

  /** `parse_single_action(text, date)`: the text cleaned, company and
      ticker found, the company cleaned up, and the action when the
      company has more than one character. */
  method ParseSingleAction(text: string, date: string) returns (action: Option<Action>)
    ensures action == ParseAction(text, date)
  {
    var t := Strip(CollapseSpaces(text));
    var company, ticker := FindCompanyAndTicker(t);
    if company != "" {
      company := DropParenTail(company);
      company := FixSuffix(company);
      company := Strip(company);
    }
    var actionType := ClassifyActionType(t);
    var ratio := ExtractRatio(t);
    if company != "" && |company| > 1 {
      action := Some(Action(date, company, ticker, actionType, ratio, t));
    } else {
      action := None;
    }
  }

  // Properties of the parser

  predicate AllUpper(x: string) { forall i :: 0 <= i < |x| ==> IsUpper(x[i]) }

  /** The shape `[A-Z]{1,6}(?:\.[A-Z])?` gives a ticker. */
  predicate TickerLike(x: string) {
    (1 <= |x| <= 6 && AllUpper(x)) ||
    (3 <= |x| <= 8 && AllUpper(x[..|x| - 2]) && x[|x| - 2] == '.' && IsUpper(x[|x| - 1]))
  }

  /** The ticker pattern matches a run of one to six capitals ending at
      `m`, then possibly a dot and one more capital. */
  lemma TickerRun(s: string, b: nat) returns (m: nat)
    requires Match(TickerPat, s, b).Some?
    ensures var e := Match(TickerPat, s, b).value;
      b < m <= b + 6 && m <= e && (forall k :: b <= k < m ==> IsUpper(s[k])) &&
      (e == m || (e == m + 2 && s[m] == '.' && IsUpper(s[m + 1])))
  {
    var run: Pattern := [One(Run(Upper, 1, 6))];
    var g := [Text("."), Run(Upper, 1, 1)];
    var opt: Pattern := [Maybe(g)];
    assert TickerPat == run + opt;
    MatchConcat(run, opt, s, b);
    RunMatch(Upper, 1, 6, s, b);
    m := Match(run, s, b).value;
    var e := Match(opt, s, m).value;
    assert opt[1..] == [];
    if MatchAtoms(g, s, m).Some? {
      var d := MatchAtom(Text("."), s, m).value;
      assert d == m + 1 && s[m..m + 1] == ".";
      assert g[1..][1..] == [];
      assert MatchAtoms(g[1..], s, d) == MatchAtom(Run(Upper, 1, 1), s, d);
    }
  }

  /** One to six capitals, then possibly a dot and a capital, make a
      ticker. */
  lemma TickerSlice(s: string, b: nat, m: nat, e: nat)
    requires b < m <= b + 6 && m <= e <= |s| && forall k :: b <= k < m ==> IsUpper(s[k])
    requires e == m || (e == m + 2 && s[m] == '.' && IsUpper(s[m + 1]))
    ensures TickerLike(s[b..e])
  {
    var x := s[b..e];
    if e == m {
      forall k | 0 <= k < |x| ensures IsUpper(x[k]) {
        assert x[k] == s[b + k];
      }
    } else {
      var init := x[..|x| - 2];
      forall k | 0 <= k < |init| ensures IsUpper(init[k]) {
        assert init[k] == s[b + k];
      }
      assert x[|x| - 2] == s[m] && x[|x| - 1] == s[m + 1];
    }
  }

  /** What the ticker pattern matches has the shape of a ticker. */
  lemma TickerMatch(s: string, b: nat)
    requires Match(TickerPat, s, b).Some?
    ensures TickerLike(s[b..Match(TickerPat, s, b).value])
  {
    var m := TickerRun(s, b);
    TickerSlice(s, b, m, Match(TickerPat, s, b).value);
  }

  /** A ticker has no whitespace at either end, so `strip()` keeps it. */
  lemma TickerStrip(x: string)
    requires TickerLike(x)
    ensures Strip(x) == x
  {
    StripUnchanged(x);
  }

  /** The lazy company group ends at the first position after which the
      rest of the head pattern matches, and the pattern fails exactly when
      there is no such position before the first `(`. */
  lemma MatchHeadSpec(h: (Pattern, Pattern), t: string)
    ensures MatchHead(h, t).None? <==> forall q :: 1 <= q <= FirstParen(t) ==> HeadAt(h, t, q).None?
    ensures MatchHead(h, t).Some? ==> forall q :: 1 <= q < MatchHead(h, t).value.0 ==> HeadAt(h, t, q).None?
  {
    forall q: nat ensures HeadFinder(h, t)(q) == HeadAt(h, t, q) {
    }
  }

  /** The ticker group of a head pattern has the shape of a ticker. */
  lemma HeadTicker(h: (Pattern, Pattern), t: string, q: nat)
    requires HeadAt(h, t, q).Some?
    ensures TickerLike(HeadAt(h, t, q).value)
  {
    var b := Match(h.0, t, q).value;
    TickerMatch(t, b);
  }

  /** The parsed ticker is empty or has the shape of a ticker. */
  lemma TickerShape(t: string)
    ensures var tk := FoundTicker(t); tk == "" || TickerLike(tk)
  {
    match FirstHead(t)
    case Some((q, tk)) =>
      FirstSomeSpec(HeadResults(t), 0);
      var k :| 0 <= k < |Heads| && MatchHead(Heads[k], t) == FirstHead(t);
      HeadTicker(Heads[k], t, q);
      TickerStrip(tk);
      assert FoundTicker(t) == tk;
    case None =>
      match Search(BareTickerFinder(t), 0, |t|)
      case Some((j, tk)) =>
        assert BareTickerFinder(t)(j) == BareTickerAt(t, j);
        var b := Match([One(Text("("))], t, j).value;
        TickerMatch(t, b);
        assert FoundTicker(t) == tk;
      case None =>
  }

  /** The stripped prefix of `t` up to `q <= FirstParen(t)` holds no `(`. */
  lemma PrefixNoParen(t: string, q: nat)
    requires q <= FirstParen(t)
    ensures '(' !in Strip(t[..q])
  {
    var a := StripSlice(t[..q]);
    var r := Strip(t[..q]);
    forall i | 0 <= i < |r| ensures r[i] != '(' {
      assert r[i] == t[..q][a + i] == t[a + i];
    }
  }

  /** The company found before the clean-up holds no `(`. */
  lemma CompanyNoParen(t: string)
    ensures '(' !in FoundCompany(t)
  {
    var head := FirstHead(t);
    if head.Some? {
      PrefixNoParen(t, head.value.0);
    }
    var fallback := FallbackCompanyEnd(t);
    if fallback.Some? {
      PrefixNoParen(t, fallback.value);
    }
  }

  /** Without `(` the tail pattern `\s*\([^)]*\)\s*$` never matches, so
      its clean-up changes nothing. */
  lemma DropParenTailNoParen(company: string)
    requires '(' !in company
    ensures DropParenTail(company) == company
  {
    var sp: Pattern := [One(Run(Space, 0, 0))];
    var open: Pattern := [One(Text("("))];
    var rest: Pattern := ParenTailPat[2..];
    assert ParenTailPat == sp + (open + rest);
    forall j: nat ensures EndFinder(ParenTailPat, company)(j).None? {
      MatchConcat(sp, open + rest, company, j);
      var e := Match(sp, company, j);
      if e.Some? {
        var x := e.value;
        MatchConcat(open, rest, company, x);
        if x < |company| {
          assert company[x..x + 1][0] != '(';
        }
        TextNoMatch("(", company, x);
      }
    }
  }

  /** The suffix clean-up changes a name exactly when a suffix pattern
      matches to the end: from the leftmost such position the whitespace,
      the suffix and its dots become one space and the suffix. */
  predicate HasSuffix(c: string) {
    exists j :: 0 <= j <= |c| && SuffixAt(c, j).Some?
  }

  lemma FixSuffixSpec(c: string)
    ensures !HasSuffix(c) ==> FixSuffix(c) == c
    ensures HasSuffix(c) ==>
      exists j, q :: 0 <= j <= |c| && 0 <= q < |Suffixes| &&
        Match(SuffixPat(Suffixes[q]), c, j) == Some(|c|) &&
        (forall i :: 0 <= i < j ==> SuffixAt(c, i).None?) &&
        FixSuffix(c) == c[..j] + " " + Suffixes[q]
  {
    var r := Search(SuffixFinder(c), 0, |c|);
    forall j: nat ensures SuffixFinder(c)(j) == SuffixAt(c, j) {
    }
    if r.Some? {
      var j := r.value.0;
      var q := r.value.1;
      assert SuffixAt(c, j) == Some(q);
      assert FixSuffix(c) == c[..j] + " " + Suffixes[q];
    } else {
      assert FixSuffix(c) == c;
    }
  }

  /** The suffixes are words of letters. */
  lemma SuffixLetters(q: nat)
    requires q < |Suffixes|
    ensures forall y :: 0 <= y < |Suffixes[q]| ==> IsLetter(Suffixes[q][y])
  {
  }

  /** The suffix clean-up brings in no `(`. */
  lemma FixSuffixNoParen(c: string)
    requires '(' !in c
    ensures '(' !in FixSuffix(c)
  {
    var r := Search(SuffixFinder(c), 0, |c|);
    if r.Some? {
      var j := r.value.0;
      var q := r.value.1;
      var w := Suffixes[q];
      assert FixSuffix(c) == c[..j] + " " + w;
      SuffixLetters(q);
      assert '(' !in w;
      assert forall i :: 0 <= i < j ==> c[..j][i] == c[i];
    }
  }

  /** The company clean-up of the name the parser finds is the suffix
      clean-up and `strip()`; the parenthetical clean-up never fires. */
  lemma CleanCompanyOfFound(t: string)
    ensures var c := FoundCompany(t);
      c != "" ==> DropParenTail(c) == c && CleanCompany(c) == Strip(FixSuffix(c))
    ensures '(' !in CleanCompany(FoundCompany(t))
  {
    var c := FoundCompany(t);
    CompanyNoParen(t);
    if c != "" {
      DropParenTailNoParen(c);
      FixSuffixNoParen(c);
      var a := StripSlice(FixSuffix(c));
      var r := CleanCompany(c);
      forall i | 0 <= i < |r| ensures r[i] != '(' {
        assert r[i] == FixSuffix(c)[a + i];
      }
    }
  }

  /** An action is produced exactly when the cleaned company name has at
      least two characters; it carries the date as given, the cleaned
      text as details, and the type and ratio found in that text. */
  lemma ParseActionFields(text: string, date: string)
    ensures var t := CleanText(text); var r := ParseAction(text, date);
      (r.Some? <==> |CleanCompany(FoundCompany(t))| >= 2) &&
      (r.Some? ==> (r.value.date == date && r.value.details == t &&
         r.value.company == CleanCompany(FoundCompany(t)) && r.value.ticker == FoundTicker(t) &&
         r.value.actionType == ClassifyActionType(t) && r.value.ratio == ExtractRatio(t)))
  {
  }

  /** The cleaned-up company the parser finds has no `(` and no
      whitespace at either end. */
  lemma CleanCompanyShape(t: string)
    ensures var c := CleanCompany(FoundCompany(t));
      '(' !in c && (c != "" ==> !IsSpace(c[0]) && !IsSpace(c[|c| - 1]))
  {
    CleanCompanyOfFound(t);
    var c := FoundCompany(t);
    if c != "" {
      StripSpec(FixSuffix(DropParenTail(c)));
    }
  }

  /** The company of a parsed action has no `(`, no whitespace at either
      end and at least two characters; its ticker is empty or has the shape
      of a ticker. */
  lemma ParseActionShape(text: string, date: string)
    ensures var r := ParseAction(text, date);
      r.Some? ==> ('(' !in r.value.company && |r.value.company| >= 2 &&
        !IsSpace(r.value.company[0]) && !IsSpace(r.value.company[|r.value.company| - 1]) &&
        (r.value.ticker == "" || TickerLike(r.value.ticker)))
  {
    var t := CleanText(text);
    ParseActionFields(text, date);
    CleanCompanyShape(t);
    TickerShape(t);
  }

  /** The details of a parsed action are the text with every run of
      whitespace made one space and the ends trimmed: single-spaced, with
      the visible characters of the text in order. */
  lemma ParseActionDetails(text: string, date: string)
    ensures var r := ParseAction(text, date);
      r.Some? ==> (SingleSpaced(r.value.details) && !IsSpace(r.value.details[0]) &&
        Visible(r.value.details) == Visible(text))
  {
    var c := CollapseSpaces(text);
    CollapseSpacesSpec(text);
    StripSingleSpaced(c);
    StripSpec(c);
    StripVisible(c);
  }
}
