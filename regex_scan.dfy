/**
 * The regular expressions of the corporate-action scrapers, as patterns
 * (data) run by one greedy matcher.
 *
 * Every pattern the scrapers use is a sequence of literals, greedy
 * repetitions of a character class and greedy optional groups, in which
 * each repetition is followed by a character outside its class. In such a
 * pattern the greedy choice at every step is the only one that can lead to
 * a match, so Python's backtracking finds a match exactly when the greedy
 * scan below does, and the same one. `re.search` is then the leftmost
 * start position at which the scan succeeds. Character classes are ASCII,
 * except `\s`, which is Python's full whitespace set (see `PyText`).
 */
module RegexScan {
  import opened Options
  import opened PyText

  /** The character classes the patterns use: `\d`, `\s`, `\w`, `[A-Z]`,
      "anything but `c`" (`[^c]`) and the one character `c`. */
  datatype Class = Digit | Space | Word | Upper | Not(c: char) | Just(c: char)

  predicate InClass(x: char, cl: Class) {
    match cl
    case Digit => IsDigit(x)
    case Space => IsSpace(x)
    case Word => IsWordChar(x)
    case Upper => IsUpper(x)
    case Not(c) => x != c
    case Just(c) => x == c
  }

  /** The end of the longest run, from `i`, of characters in class `cl`. */
  function Span(s: string, i: nat, cl: Class): (j: nat)
    requires i <= |s|
    ensures i <= j <= |s|
    ensures j > i ==> InClass(s[i], cl) && InClass(s[j - 1], cl)
    ensures j < |s| ==> !InClass(s[j], cl)
    decreases |s| - i
  {
    if i < |s| && InClass(s[i], cl) then Span(s, i + 1, cl) else i
  }

  /** Every character of the run is in the class. */
  lemma {:induction false} SpanAll(s: string, i: nat, cl: Class)
    requires i <= |s|
    ensures forall k :: i <= k < Span(s, i, cl) ==> InClass(s[k], cl)
    decreases |s| - i
  {
    if i < |s| && InClass(s[i], cl) {
      SpanAll(s, i + 1, cl);
    }
  }

  /** `\b` at position `p`: a word character on exactly one side. */
  predicate Boundary(s: string, p: nat)
    requires p <= |s|
  {
    (p > 0 && IsWordChar(s[p - 1])) != (p < |s| && IsWordChar(s[p]))
  }

  /** A piece of a pattern that does not branch. */
  datatype Atom =
    | Text(w: string)                    // the literal `w`
    | TextNoCase(w: string)              // `w` under `re.IGNORECASE`, written in lower case
    | Run(cl: Class, min: nat, max: nat) // `cl{min,max}`, greedy; `max == 0` for no bound
    | Edge                               // `\b`

  /** A piece of a pattern: an atom, or the greedy group `(?:...)?`. */
  datatype Item = One(a: Atom) | Maybe(group: seq<Atom>)

  type Pattern = seq<Item>

  /** Where atom `a` matched from `i` ends. */
  function MatchAtom(a: Atom, s: string, i: nat): (r: Option<nat>)
    requires i <= |s|
    ensures r.Some? ==> i <= r.value <= |s|
  {
    match a
    case Text(w) =>
      if i + |w| <= |s| && s[i..i + |w|] == w then Some(i + |w|) else None
    case TextNoCase(w) =>
      if i + |w| <= |s| && Lower(s[i..i + |w|]) == w then Some(i + |w|) else None
    case Run(cl, min, max) =>
      var j := Span(s, i, cl);
      var e := if max > 0 && j - i > max then i + max else j;
      if e - i >= min then Some(e) else None
    case Edge =>
      if Boundary(s, i) then Some(i) else None
  }

  /** Where the atoms matched one after another from `i` end. */
  function MatchAtoms(g: seq<Atom>, s: string, i: nat): (r: Option<nat>)
    requires i <= |s|
    ensures r.Some? ==> i <= r.value <= |s|
    decreases |g|
  {
    if g == [] then Some(i)
    else
      var e :- MatchAtom(g[0], s, i);
      MatchAtoms(g[1..], s, e)
  }

  /** Where pattern `p` matched from `i` ends: `re.match` at `i`. */
  function Match(p: Pattern, s: string, i: nat): (r: Option<nat>)
    ensures r.Some? ==> i <= r.value <= |s|
    decreases |p|
  {
    if i > |s| then None
    else if p == [] then Some(i)
    else
      var e :- match p[0]
        case One(a) => MatchAtom(a, s, i)
        case Maybe(g) => match MatchAtoms(g, s, i) case Some(e) => Some(e) case None => Some(i);
      Match(p[1..], s, e)
  }

  /** A pattern of one repetition matches a run of at least `min` (and at
      most `max`, when bounded) characters of its class. */
  lemma RunMatch(cl: Class, min: nat, max: nat, s: string, i: nat)
    requires Match([One(Run(cl, min, max))], s, i).Some?
    ensures var e := Match([One(Run(cl, min, max))], s, i).value;
      e - i >= min && (max > 0 ==> e - i <= max) && forall k :: i <= k < e ==> InClass(s[k], cl)
  {
    SpanAll(s, i, cl);
    var e := MatchAtom(Run(cl, min, max), s, i).value;
    assert Match([One(Run(cl, min, max))][1..], s, e) == Some(e);
  }

  /** A pattern of one literal matches exactly where the literal occurs. */
  lemma TextMatch(w: string, s: string, i: nat)
    requires Match([One(Text(w))], s, i).Some?
    ensures Match([One(Text(w))], s, i) == Some(i + |w|)
    ensures i + |w| <= |s| && s[i..i + |w|] == w
  {
    assert Match([One(Text(w))][1..], s, i + |w|) == Some(i + |w|);
  }

  /** A pattern of one literal does not match where the literal does not
      occur. */
  lemma TextNoMatch(w: string, s: string, i: nat)
    requires i + |w| > |s| || s[i..i + |w|] != w
    ensures Match([One(Text(w))], s, i).None?
  {
  }

  /** A pattern matches nowhere in `s`. */
  predicate NoMatch(p: Pattern, s: string) {
    forall j :: 0 <= j <= |s| ==> Match(p, s, j).None?
  }

  /** `p` matches at `i` and at no position before it. */
  predicate Leftmost(p: Pattern, s: string, i: nat) {
    i <= |s| && Match(p, s, i).Some? && forall j :: 0 <= j < i ==> Match(p, s, j).None?
  }

  /** Matching two patterns in a row is matching the first and then the
      second from where the first ended. */
  lemma {:induction false} MatchConcat(p: Pattern, q: Pattern, s: string, i: nat)
    ensures Match(p + q, s, i) ==
      match Match(p, s, i) case None => None case Some(e) => Match(q, s, e)
    decreases |p|
  {
    if i <= |s| && p != [] {
      assert (p + q)[0] == p[0];
      assert (p + q)[1..] == p[1..] + q;
      var e := match p[0]
        case One(a) => MatchAtom(a, s, i)
        case Maybe(g) => match MatchAtoms(g, s, i) case Some(e) => Some(e) case None => Some(i);
      if e.Some? {
        MatchConcat(p[1..], q, s, e.value);
      }
    } else if i <= |s| {
      assert p + q == q;
    }
  }

  /** `re.search`: the leftmost position `j` in `[i, n]` at which `at`
      matches, with what the match yields there. */
  function Search<T>(at: nat -> Option<T>, i: nat, n: nat): (r: Option<(nat, T)>)
    ensures r.Some? ==> i <= r.value.0 <= n && at(r.value.0) == Some(r.value.1)
    ensures r.Some? ==> forall j :: i <= j < r.value.0 ==> at(j).None?
    ensures r.None? ==> forall j :: i <= j <= n ==> at(j).None?
    decreases n - i
  {
    if i > n then None
    else match at(i)
      case Some(v) => Some((i, v))
      case None => Search(at, i + 1, n)
  }

  /** The search for pattern `p` in `s`. */
  function Find(p: Pattern, s: string): (nat -> Option<nat>) {
    (j: nat) => Match(p, s, j)
  }

  /** `re.search(p, s)`: the leftmost match, as its start and end. */
  function SearchPattern(p: Pattern, s: string): (r: Option<(nat, nat)>)
    ensures r.Some? ==> r.value.0 <= r.value.1 <= |s| && Match(p, s, r.value.0) == Some(r.value.1)
  {
    var r := Search(Find(p, s), 0, |s|);
    if r.Some? then
      assert Find(p, s)(r.value.0) == Match(p, s, r.value.0);
      r
    else None
  }

  /** The search finds the leftmost position where the pattern matches,
      and nothing exactly when it matches nowhere. */
  lemma SearchPatternSpec(p: Pattern, s: string)
    ensures SearchPattern(p, s).None? <==> NoMatch(p, s)
    ensures SearchPattern(p, s).Some? ==> Leftmost(p, s, SearchPattern(p, s).value.0)
  {
    var r := Search(Find(p, s), 0, |s|);
    forall j | 0 <= j <= |s| ensures Find(p, s)(j) == Match(p, s, j) {
    }
    if r.Some? {
      assert Find(p, s)(r.value.0) == Match(p, s, r.value.0);
    }
  }

  /** The first of the results `xs`, from number `k` on, that is not
      `None`: a loop over alternatives that stops at the first success. */
  function FirstSome<T>(xs: seq<Option<T>>, k: nat := 0): (r: Option<T>)
    decreases |xs| - k
  {
    if k >= |xs| then None
    else if xs[k].Some? then xs[k]
    else FirstSome(xs, k + 1)
  }

  /** The loop finds nothing exactly when every result from `k` on is
      `None`; otherwise it returns a result after only `None`s. */
  lemma {:induction false} FirstSomeSpec<T>(xs: seq<Option<T>>, k: nat)
    ensures FirstSome(xs, k).None? <==> forall j :: k <= j < |xs| ==> xs[j].None?
    ensures FirstSome(xs, k).Some? ==>
      exists j :: k <= j < |xs| && xs[j] == FirstSome(xs, k) && forall i :: k <= i < j ==> xs[i].None?
    decreases |xs| - k
  {
    if k < |xs| && xs[k].None? {
      FirstSomeSpec(xs, k + 1);
    }
  }

  /** `for pattern in patterns: m = re.search(pattern, s); if m: ...` over
      patterns `k` on: the first pattern that matches anywhere, with its
      number and its leftmost match. */
  function FirstOf(ps: seq<Pattern>, s: string, k: nat := 0): (r: Option<(nat, nat, nat)>)
    ensures r.Some? ==> k <= r.value.0 < |ps| && SearchPattern(ps[r.value.0], s) == Some((r.value.1, r.value.2))
    decreases |ps| - k
  {
    if k >= |ps| then None
    else match SearchPattern(ps[k], s)
      case Some((i, e)) => Some((k, i, e))
      case None => FirstOf(ps, s, k + 1)
  }

  /** The loop finds nothing exactly when no pattern from `k` on matches
      anywhere; otherwise every pattern before the one it stops at matches
      nowhere. */
  lemma {:induction false} FirstOfSpec(ps: seq<Pattern>, s: string, k: nat)
    ensures FirstOf(ps, s, k).None? <==> forall q :: k <= q < |ps| ==> SearchPattern(ps[q], s).None?
    ensures FirstOf(ps, s, k).Some? ==> forall q :: k <= q < FirstOf(ps, s, k).value.0 ==> SearchPattern(ps[q], s).None?
    decreases |ps| - k
  {
    if k < |ps| && SearchPattern(ps[k], s).None? {
      FirstOfSpec(ps, s, k + 1);
    }
  }
}
