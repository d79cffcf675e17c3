/**
 * The paginated export fetch of `decagon_voice/voice_conversations.py`
 * (`fetch_voice_conversations`) and its Slack fan-out.
 *
 * The clock and the ISO-8601 parser are not modelled: timestamps are
 * integers, `parseTs` is what `datetime.fromisoformat` makes of a non-empty
 * string (after the `Z` rewrite), and `cutoff` is `now - days_back`. The
 * export endpoint is `api(page, cursor, attempt)`: the decoded body of the
 * `attempt`-th request (0-based) for page number `page` with that cursor, or
 * `None` when the request, the status check or the JSON decoding raised.
 */
module VoiceFetch {
  import opened Options
  import opened Json

  type Parser = string -> Option<int>
  type Api = (nat, Option<Json>, nat) -> Option<Json>

  // ---------------------------------------------------------------------
  // Timestamps

  /** `parse_iso_utc(value)`: nothing for a missing or empty value, and
      nothing for a non-string (the `replace` raises and is caught). */
  function ParseIsoUtc(parseTs: Parser, value: Json): (r: Option<int>)
    ensures !Truthy(value) ==> r == None
    ensures value.Str? && value.s != "" ==> r == parseTs(value.s)
    ensures !value.Str? ==> r == None
  {
    if !Truthy(value) then None
    else if value.Str? then parseTs(value.s)
    else None
  }

  /** The fields `best_timestamp_utc` tries, most preferred first. */
  const TimestampKeys: seq<string> := ["created_at", "started_at", "first_message_at", "updated_at"]

  /** The first key of `keys` whose value parses. */
  function FirstTimestamp(parseTs: Parser, conv: map<string, Json>, keys: seq<string>): Option<int> {
    if keys == [] then None
    else
      var dt := ParseIsoUtc(parseTs, Get(conv, keys[0]));
      if dt.Some? then dt else FirstTimestamp(parseTs, conv, keys[1..])
  }

  function BestTimestamp(parseTs: Parser, conv: map<string, Json>): Option<int> {
    FirstTimestamp(parseTs, conv, TimestampKeys)
  }

  /** The timestamp chosen is that of the first key, in preference order,
      whose value parses, and there is none when no key's value parses. */
  lemma {:induction false} FirstTimestampSpec(parseTs: Parser, conv: map<string, Json>, keys: seq<string>)
    ensures var r := FirstTimestamp(parseTs, conv, keys);
      && (r.None? <==> forall k :: 0 <= k < |keys| ==> ParseIsoUtc(parseTs, Get(conv, keys[k])).None?)
      && (r.Some? ==>
            exists k :: 0 <= k < |keys| && r == ParseIsoUtc(parseTs, Get(conv, keys[k])) &&
              (forall e :: 0 <= e < k ==> ParseIsoUtc(parseTs, Get(conv, keys[e])).None?))
  {
    if keys != [] {
      FirstTimestampSpec(parseTs, conv, keys[1..]);
      var r := FirstTimestamp(parseTs, conv, keys);
      if ParseIsoUtc(parseTs, Get(conv, keys[0])).None? {
        if r.Some? {
          var k :| 0 <= k < |keys[1..]| && r == ParseIsoUtc(parseTs, Get(conv, keys[1..][k])) &&
            forall e :: 0 <= e < k ==> ParseIsoUtc(parseTs, Get(conv, keys[1..][e])).None?;
          assert r == ParseIsoUtc(parseTs, Get(conv, keys[k + 1]));
        }
        assert forall k :: 1 <= k < |keys| ==> keys[k] == keys[1..][k - 1];
      } else {
        assert r == ParseIsoUtc(parseTs, Get(conv, keys[0]));
      }
    }
  }

  /** `best_timestamp_utc` prefers `created_at` whenever it parses. */
  lemma CreatedAtPreferred(parseTs: Parser, conv: map<string, Json>)
    requires ParseIsoUtc(parseTs, Get(conv, "created_at")).Some?
    ensures BestTimestamp(parseTs, conv) == ParseIsoUtc(parseTs, Get(conv, "created_at"))
  {
  }

  // ---------------------------------------------------------------------
  // One page of conversations

  /** `conv.get("conversation_id") or conv.get("id")` */
  function IdOf(conv: map<string, Json>): Json {
    Or(Get(conv, "conversation_id"), Get(conv, "id"))
  }

  /** What the record loop does with one record. */
  datatype Verdict =
    | Raises            // not a dictionary, or an id Python cannot hash
    | Skip              // too old, no parseable timestamp, or no id
    | Candidate(id: Json)

  function VerdictOf(parseTs: Parser, cutoff: int, conv: Json): Verdict {
    if !conv.Obj? then Raises
    else
      var dt := BestTimestamp(parseTs, conv.fields);
      if dt.None? || dt.value < cutoff then Skip
      else
        var id := IdOf(conv.fields);
        if !Truthy(id) then Skip
        else if !Hashable(id) then Raises
        else Candidate(id)
  }

  /** The conversation list of a page: `data.get("conversations", []) or []`.
      A body that is not an object, or a truthy list value that is not a
      list, makes the loop raise. */
  function PageItems(data: Json): Option<seq<Json>> {
    if !data.Obj? then None
    else
      var v := GetOr(data.fields, "conversations", Arr([]));
      if !Truthy(v) then Some([])
      else if v.Arr? then Some(v.items)
      else None
  }

  /** `data.get("next_page_cursor") or data.get("nextCursor") or data.get("next")`,
      or nothing when that is falsy. */
  function NextCursor(fields: map<string, Json>): (c: Option<Json>)
    ensures c.Some? ==> Truthy(c.value)
  {
    var v := Or(Or(Get(fields, "next_page_cursor"), Get(fields, "nextCursor")), Get(fields, "next"));
    if Truthy(v) then Some(v) else None
  }

  /** The ids and records kept so far. */
  datatype Kept = Kept(seen: set<Json>, items: seq<Json>)

  /** The record loop over `convs` from `kept`; `None` when it raises. */
  function Scan(parseTs: Parser, cutoff: int, convs: seq<Json>, kept: Kept): Option<Kept>
    decreases |convs|
  {
    if convs == [] then Some(kept)
    else
      match VerdictOf(parseTs, cutoff, convs[0])
      case Raises => None
      case Skip => Scan(parseTs, cutoff, convs[1..], kept)
      case Candidate(id) =>
        if id in kept.seen then Scan(parseTs, cutoff, convs[1..], kept)
        else Scan(parseTs, cutoff, convs[1..], Kept(kept.seen + {id}, kept.items + [convs[0]]))
  }

  /** The record loop of one page. */
  method ScanPage(parseTs: Parser, cutoff: int, convs: seq<Json>, seenIds: set<Json>, allItems: seq<Json>)
    returns (ok: bool, seen: set<Json>, items: seq<Json>)
    ensures ok <==> Scan(parseTs, cutoff, convs, Kept(seenIds, allItems)).Some?
    ensures ok ==> Scan(parseTs, cutoff, convs, Kept(seenIds, allItems)) == Some(Kept(seen, items))
  {
    seen, items := seenIds, allItems;
    for i := 0 to |convs|
      invariant Scan(parseTs, cutoff, convs, Kept(seenIds, allItems)) == Scan(parseTs, cutoff, convs[i..], Kept(seen, items))
    {
      assert convs[i..][1..] == convs[i + 1..];
      var conv := convs[i];
      var verdict := VerdictOf(parseTs, cutoff, conv);
      if verdict.Raises? {
        return false, seen, items;
      }
      if verdict.Skip? {
        continue;
      }
      if verdict.id in seen {
        continue;
      }
      seen := seen + {verdict.id};
      items := items + [conv];
    }
    ok := true;
  }

  // ---------------------------------------------------------------------
  // The page loop

  /** One page request with its retries: the body, the waits and the requests made. */
  datatype Got = Got(data: Option<Json>, delays: seq<nat>, requests: nat)

  /** `for attempt in range(3)`: waits of 1.5 s and 3 s; the third failure raises. */
  function GetPageFrom(api: Api, page: nat, cursor: Option<Json>, attempt: nat): Got
    decreases 2 - attempt
  {
    var r := api(page, cursor, attempt);
    if r.Some? then Got(r, [], 1)
    else if attempt >= 2 then Got(None, [], 1)
    else
      var rest := GetPageFrom(api, page, cursor, attempt + 1);
      Got(rest.data, [1500 * (attempt + 1)] + rest.delays, rest.requests + 1)
  }

  /** A page is requested at most three times; it is fetched iff one of the
      three requests answers, with the first answer; the waits are 1.5 s
      after the first failure and 3 s after the second. */
  lemma GetPageSpec(api: Api, page: nat, cursor: Option<Json>)
    ensures var g := GetPageFrom(api, page, cursor, 0);
      && 1 <= g.requests <= 3
      && (g.data.Some? <==> exists a :: 0 <= a < 3 && api(page, cursor, a).Some?)
      && (g.data.Some? ==> g.data == api(page, cursor, g.requests - 1))
      && (forall a :: 0 <= a < g.requests - 1 ==> api(page, cursor, a).None?)
      && g.delays == [1500, 3000][..g.requests - 1]
  {
  }

  datatype Status = Done | Failed | Unfinished

  /** The fetch's outcome: how it ended, the records returned, every record
      the pages listed (in order), the pages completed, and all waits. */
  datatype Fetch = Fetch(status: Status, items: seq<Json>, scanned: seq<Json>, pages: nat, delays: seq<nat>)

  /** The `while True` loop from page `page` with `cursor`; `fuel` bounds the
      number of further pages. */
  function FetchFrom(api: Api, parseTs: Parser, cutoff: int, maxPages: int, fuel: nat,
                     page: nat, cursor: Option<Json>, kept: Kept, scanned: seq<Json>, delays: seq<nat>): Fetch
    decreases fuel
  {
    if fuel == 0 then Fetch(Unfinished, kept.items, scanned, page, delays)
    else
      var g := GetPageFrom(api, page, cursor, 0);
      var waits := delays + g.delays;
      if g.data.None? then Fetch(Failed, [], scanned, page, waits)
      else
        var convs := PageItems(g.data.value);
        if convs.None? then Fetch(Failed, [], scanned, page + 1, waits)
        else
          var sc := Scan(parseTs, cutoff, convs.value, kept);
          var all := scanned + convs.value;
          if sc.None? then Fetch(Failed, [], all, page + 1, waits)
          else
            var next := NextCursor(g.data.value.fields);
            if next.None? || (maxPages != 0 && page + 1 >= maxPages) then
              Fetch(Done, sc.value.items, all, page + 1, waits)
            else
              FetchFrom(api, parseTs, cutoff, maxPages, fuel - 1, page + 1, next, sc.value, all, waits)
  }

  /** `fetch_voice_conversations(days_back, max_pages)`, with `maxPages == 0`
      standing for `None`; a missing API key raises before any request. */
  function FetchVoiceConversationsSpec(apiKey: bool, api: Api, parseTs: Parser, cutoff: int, maxPages: int, fuel: nat): Fetch {
    if !apiKey then Fetch(Failed, [], [], 0, [])
    else FetchFrom(api, parseTs, cutoff, maxPages, fuel, 0, None, Kept({}, []), [], [])
  }

  /** One request, unfolded: an answer ends the retries, the third failure
      gives up, and an earlier failure waits and tries again. */
  lemma GetPageStep(api: Api, page: nat, cursor: Option<Json>, attempt: nat)
    requires attempt <= 2
    ensures api(page, cursor, attempt).Some? || attempt == 2 ==>
      GetPageFrom(api, page, cursor, attempt).data == api(page, cursor, attempt) &&
      GetPageFrom(api, page, cursor, attempt).delays == []
    ensures attempt < 2 && api(page, cursor, attempt).None? ==>
      var rest := GetPageFrom(api, page, cursor, attempt + 1);
      GetPageFrom(api, page, cursor, attempt).data == rest.data &&
      GetPageFrom(api, page, cursor, attempt).delays == [1500 * (attempt + 1)] + rest.delays
  {
  }

  /** The retry loop for one page. */
  method GetPage(api: Api, page: nat, cursor: Option<Json>) returns (data: Option<Json>, delays: seq<nat>)
    ensures data == GetPageFrom(api, page, cursor, 0).data && delays == GetPageFrom(api, page, cursor, 0).delays
  {
    delays := [];
    ghost var whole := GetPageFrom(api, page, cursor, 0);
    assert whole.delays == delays + whole.delays;
    for attempt := 0 to 2
      invariant whole.data == GetPageFrom(api, page, cursor, attempt).data
      invariant whole.delays == delays + GetPageFrom(api, page, cursor, attempt).delays
    {
      var resp := api(page, cursor, attempt);
      GetPageStep(api, page, cursor, attempt);
      if resp.Some? {
        return resp, delays;
      }
      ghost var rest := GetPageFrom(api, page, cursor, attempt + 1);
      assert delays + ([1500 * (attempt + 1)] + rest.delays) == (delays + [1500 * (attempt + 1)]) + rest.delays;
      delays := delays + [1500 * (attempt + 1)];
    }
    // The third attempt: its failure is the one that is re-raised.
    data := api(page, cursor, 2);
    GetPageStep(api, page, cursor, 2);
  }

  /** `fetch_voice_conversations`: the page loop, at most `fuel` pages. */
  method FetchVoiceConversations(apiKey: bool, api: Api, parseTs: Parser, cutoff: int, maxPages: int, fuel: nat)
    returns (result: Fetch)
    ensures result == FetchVoiceConversationsSpec(apiKey, api, parseTs, cutoff, maxPages, fuel)
  {
    if !apiKey {
      return Fetch(Failed, [], [], 0, []);
    }
    var allItems: seq<Json> := [];
    var seenIds: set<Json> := {};
    var cursor: Option<Json> := None;
    var page: nat := 0;
    var scanned: seq<Json> := [];
    var delays: seq<nat> := [];
    var left := fuel;
    while left > 0
      invariant FetchFrom(api, parseTs, cutoff, maxPages, left, page, cursor, Kept(seenIds, allItems), scanned, delays)
             == FetchVoiceConversationsSpec(apiKey, api, parseTs, cutoff, maxPages, fuel)
      decreases left
    {
      var data, waits := GetPage(api, page, cursor);
      delays := delays + waits;
      if data.None? {
        return Fetch(Failed, [], scanned, page, delays);
      }
      page := page + 1;
      var convs := PageItems(data.value);
      if convs.None? {
        return Fetch(Failed, [], scanned, page, delays);
      }
      var ok, seen', items' := ScanPage(parseTs, cutoff, convs.value, seenIds, allItems);
      scanned := scanned + convs.value;
      if !ok {
        return Fetch(Failed, [], scanned, page, delays);
      }
      seenIds, allItems := seen', items';
      cursor := NextCursor(data.value.fields);
      if cursor.None? {
        return Fetch(Done, allItems, scanned, page, delays);
      }
      if maxPages != 0 && page >= maxPages {
        return Fetch(Done, allItems, scanned, page, delays);
      }
      left := left - 1;
    }
    result := Fetch(Unfinished, allItems, scanned, page, delays);
  }

  // ---------------------------------------------------------------------
  // What the returned records satisfy

  /** Record `j` of `xs` is returned: it passes the filters and no earlier
      record that passes them has the same id. */
  predicate FirstOccurrence(parseTs: Parser, cutoff: int, xs: seq<Json>, j: int)
    requires 0 <= j < |xs|
  {
    && VerdictOf(parseTs, cutoff, xs[j]).Candidate?
    && forall k :: 0 <= k < j && VerdictOf(parseTs, cutoff, xs[k]).Candidate? ==>
         VerdictOf(parseTs, cutoff, xs[k]).id != VerdictOf(parseTs, cutoff, xs[j]).id
  }

  /** The first occurrences of `xs`, in order: the reference the fetch is compared with. */
  function FirstOccurrences(parseTs: Parser, cutoff: int, xs: seq<Json>): seq<Json> {
    if xs == [] then []
    else
      FirstOccurrences(parseTs, cutoff, xs[..|xs| - 1]) +
      (if FirstOccurrence(parseTs, cutoff, xs, |xs| - 1) then [xs[|xs| - 1]] else [])
  }

  predicate NoRaise(parseTs: Parser, cutoff: int, xs: seq<Json>) {
    forall j :: 0 <= j < |xs| ==> !VerdictOf(parseTs, cutoff, xs[j]).Raises?
  }

  /** The ids of the candidates among `xs`. */
  function CandidateIds(parseTs: Parser, cutoff: int, xs: seq<Json>): set<Json> {
    set j | 0 <= j < |xs| && VerdictOf(parseTs, cutoff, xs[j]).Candidate? :: VerdictOf(parseTs, cutoff, xs[j]).id
  }

  /** `kept` is what scanning `xs` from nothing leaves. */
  predicate ScannedFrom(parseTs: Parser, cutoff: int, xs: seq<Json>, kept: Kept) {
    && NoRaise(parseTs, cutoff, xs)
    && kept.items == FirstOccurrences(parseTs, cutoff, xs)
    && kept.seen == CandidateIds(parseTs, cutoff, xs)
  }

  lemma FirstOccurrenceExtend(parseTs: Parser, cutoff: int, xs: seq<Json>, x: Json)
    ensures FirstOccurrence(parseTs, cutoff, xs + [x], |xs|) <==>
      VerdictOf(parseTs, cutoff, x).Candidate? && VerdictOf(parseTs, cutoff, x).id !in CandidateIds(parseTs, cutoff, xs)
  {
    var ys := xs + [x];
    var v := VerdictOf(parseTs, cutoff, x);
    if v.Candidate? && v.id in CandidateIds(parseTs, cutoff, xs) {
      var k :| 0 <= k < |xs| && VerdictOf(parseTs, cutoff, xs[k]).Candidate? && VerdictOf(parseTs, cutoff, xs[k]).id == v.id;
      assert ys[k] == xs[k];
    }
    if v.Candidate? && v.id !in CandidateIds(parseTs, cutoff, xs) {
      forall k | 0 <= k < |xs| && VerdictOf(parseTs, cutoff, ys[k]).Candidate?
        ensures VerdictOf(parseTs, cutoff, ys[k]).id != v.id
      {
        assert ys[k] == xs[k];
      }
    }
  }

  lemma CandidateIdsExtend(parseTs: Parser, cutoff: int, xs: seq<Json>, x: Json)
    ensures CandidateIds(parseTs, cutoff, xs + [x]) ==
      CandidateIds(parseTs, cutoff, xs) + (if VerdictOf(parseTs, cutoff, x).Candidate? then {VerdictOf(parseTs, cutoff, x).id} else {})
  {
    var ys := xs + [x];
    forall j | 0 <= j < |xs| ensures ys[j] == xs[j] {}
    assert ys[|xs|] == x;
  }

  lemma FirstOccurrencesPrefix(parseTs: Parser, cutoff: int, xs: seq<Json>, x: Json)
    ensures FirstOccurrences(parseTs, cutoff, xs + [x]) ==
      FirstOccurrences(parseTs, cutoff, xs) + (if FirstOccurrence(parseTs, cutoff, xs + [x], |xs|) then [x] else [])
  {
    assert (xs + [x])[..|xs|] == xs;
  }

  /** Scanning more records keeps the kept state equal to the reference. */
  lemma {:induction false} ScanMatchesReference(parseTs: Parser, cutoff: int, xs: seq<Json>, convs: seq<Json>, kept: Kept)
    requires ScannedFrom(parseTs, cutoff, xs, kept)
    ensures Scan(parseTs, cutoff, convs, kept).Some? <==> NoRaise(parseTs, cutoff, convs)
    ensures Scan(parseTs, cutoff, convs, kept).None? ==> !NoRaise(parseTs, cutoff, xs + convs)
    ensures Scan(parseTs, cutoff, convs, kept).Some? ==>
      ScannedFrom(parseTs, cutoff, xs + convs, Scan(parseTs, cutoff, convs, kept).value)
    decreases |convs|
  {
    if convs == [] {
      assert xs + convs == xs;
    } else {
      var x := convs[0];
      var v := VerdictOf(parseTs, cutoff, x);
      assert xs + convs == (xs + [x]) + convs[1..];
      if v.Raises? {
        assert !NoRaise(parseTs, cutoff, convs);
        assert (xs + convs)[|xs|] == x;
      } else {
        FirstOccurrenceExtend(parseTs, cutoff, xs, x);
        CandidateIdsExtend(parseTs, cutoff, xs, x);
        FirstOccurrencesPrefix(parseTs, cutoff, xs, x);
        var next := if v.Candidate? && v.id !in kept.seen then Kept(kept.seen + {v.id}, kept.items + [x]) else kept;
        assert ScannedFrom(parseTs, cutoff, xs + [x], next);
        ScanMatchesReference(parseTs, cutoff, xs + [x], convs[1..], next);
        assert NoRaise(parseTs, cutoff, convs) <==> NoRaise(parseTs, cutoff, convs[1..]) by {
          forall j | 0 <= j < |convs[1..]| ensures convs[1..][j] == convs[j + 1] {}
        }
      }
    }
  }

  /** The page loop keeps the records equal to the reference over every
      record fetched so far, and never completes more pages than `max_pages`. */
  lemma {:induction false} FetchFromMatches(api: Api, parseTs: Parser, cutoff: int, maxPages: int, fuel: nat,
      page: nat, cursor: Option<Json>, kept: Kept, scanned: seq<Json>, delays: seq<nat>)
    requires ScannedFrom(parseTs, cutoff, scanned, kept)
    ensures var f := FetchFrom(api, parseTs, cutoff, maxPages, fuel, page, cursor, kept, scanned, delays);
      f.status != Failed ==> f.items == FirstOccurrences(parseTs, cutoff, f.scanned) && NoRaise(parseTs, cutoff, f.scanned)
    ensures var f := FetchFrom(api, parseTs, cutoff, maxPages, fuel, page, cursor, kept, scanned, delays);
      f.pages >= page && (maxPages > 0 && page < maxPages ==> f.pages <= maxPages)
    decreases fuel
  {
    if fuel > 0 {
      var g := GetPageFrom(api, page, cursor, 0);
      if g.data.Some? {
        var convs := PageItems(g.data.value);
        if convs.Some? {
          ScanMatchesReference(parseTs, cutoff, scanned, convs.value, kept);
          var sc := Scan(parseTs, cutoff, convs.value, kept);
          var next := NextCursor(g.data.value.fields);
          if sc.Some? && !(next.None? || (maxPages != 0 && page + 1 >= maxPages)) {
            FetchFromMatches(api, parseTs, cutoff, maxPages, fuel - 1, page + 1, next, sc.value,
              scanned + convs.value, delays + g.delays);
          }
        }
      }
    }
  }

  /** The first occurrences are candidates with pairwise distinct ids, and
      every candidate id of `xs` is the id of one of them. */
  lemma {:induction false} FirstOccurrencesSpec(parseTs: Parser, cutoff: int, xs: seq<Json>)
    ensures var r := FirstOccurrences(parseTs, cutoff, xs);
      && (forall i :: 0 <= i < |r| ==> VerdictOf(parseTs, cutoff, r[i]).Candidate?)
      && (forall i, j :: 0 <= i < j < |r| ==> VerdictOf(parseTs, cutoff, r[i]).id != VerdictOf(parseTs, cutoff, r[j]).id)
      && (set i | 0 <= i < |r| :: VerdictOf(parseTs, cutoff, r[i]).id) == CandidateIds(parseTs, cutoff, xs)
  {
    if xs != [] {
      var ys := xs[..|xs| - 1];
      var x := xs[|xs| - 1];
      assert xs == ys + [x];
      FirstOccurrencesSpec(parseTs, cutoff, ys);
      FirstOccurrenceExtend(parseTs, cutoff, ys, x);
      CandidateIdsExtend(parseTs, cutoff, ys, x);
      FirstOccurrencesPrefix(parseTs, cutoff, ys, x);
      var p := FirstOccurrences(parseTs, cutoff, ys);
      var r := FirstOccurrences(parseTs, cutoff, xs);
      if FirstOccurrence(parseTs, cutoff, xs, |ys|) {
        assert r == p + [x];
        var idsR := set i | 0 <= i < |r| :: VerdictOf(parseTs, cutoff, r[i]).id;
        var idsP := set i | 0 <= i < |p| :: VerdictOf(parseTs, cutoff, p[i]).id;
        forall id ensures id in idsR <==> id in idsP + {VerdictOf(parseTs, cutoff, x).id} {
          if id in idsR {
            var i :| 0 <= i < |r| && VerdictOf(parseTs, cutoff, r[i]).id == id;
            if i < |p| { assert r[i] == p[i]; } else { assert r[i] == x; }
          }
          if id in idsP {
            var i :| 0 <= i < |p| && VerdictOf(parseTs, cutoff, p[i]).id == id;
            assert r[i] == p[i];
          }
          if id == VerdictOf(parseTs, cutoff, x).id {
            assert r[|p|] == x;
          }
        }
        assert idsR == idsP + {VerdictOf(parseTs, cutoff, x).id};
      } else {
        assert r == p;
      }
    }
  }

  /** What the fetch returns (when it does not raise): in fetch order, the
      first record of each id among all records the pages listed, keeping
      only dictionaries with a parseable timestamp at or after the cutoff and
      a non-empty id; no two returned records share an id; every id that
      passes the filters somewhere is returned; at most `max_pages` pages. */
  lemma FetchCharacterized(apiKey: bool, api: Api, parseTs: Parser, cutoff: int, maxPages: int, fuel: nat)
    ensures var f := FetchVoiceConversationsSpec(apiKey, api, parseTs, cutoff, maxPages, fuel);
      && (!apiKey ==> f.status == Failed && f.pages == 0)
      && (maxPages > 0 ==> f.pages <= maxPages)
      && (f.status != Failed ==>
            && f.items == FirstOccurrences(parseTs, cutoff, f.scanned)
            && (forall i :: 0 <= i < |f.items| ==>
                  && f.items[i].Obj?
                  && BestTimestamp(parseTs, f.items[i].fields).Some?
                  && BestTimestamp(parseTs, f.items[i].fields).value >= cutoff
                  && Truthy(IdOf(f.items[i].fields)))
            && (forall i, j :: 0 <= i < j < |f.items| ==> IdOf(f.items[i].fields) != IdOf(f.items[j].fields))
            && (set i | 0 <= i < |f.items| :: IdOf(f.items[i].fields)) == CandidateIds(parseTs, cutoff, f.scanned))
  {
    if apiKey {
      FetchFromMatches(api, parseTs, cutoff, maxPages, fuel, 0, None, Kept({}, []), [], []);
      var f := FetchVoiceConversationsSpec(apiKey, api, parseTs, cutoff, maxPages, fuel);
      FirstOccurrencesSpec(parseTs, cutoff, f.scanned);
      var r := f.items;
      if f.status != Failed {
        assert forall i :: 0 <= i < |r| ==> VerdictOf(parseTs, cutoff, r[i]).id == IdOf(r[i].fields);
      }
    }
  }

  /** Every record returned is one that a page listed. */
  lemma {:induction false} FirstOccurrencesSubsequence(parseTs: Parser, cutoff: int, xs: seq<Json>)
    ensures forall x :: x in FirstOccurrences(parseTs, cutoff, xs) ==> x in xs
  {
    if xs != [] {
      FirstOccurrencesSubsequence(parseTs, cutoff, xs[..|xs| - 1]);
    }
  }

  // ---------------------------------------------------------------------
  // Slack fan-out

  /** `str(not conversation.get('undeflected', True))` */
  function DeflectedText(conv: map<string, Json>): (t: string)
    ensures "undeflected" !in conv ==> t == "False"
    ensures "undeflected" in conv ==> (t == "True" <==> !Truthy(conv["undeflected"]))
    ensures t == "True" || t == "False"
  {
    BoolText(!Truthy(GetOr(conv, "undeflected", Bool(true))))
  }

  /** What one `requests.post` to Slack gave. */
  datatype SlackReply = SlackStatus(code: int) | SlackRaised

  /** `send_to_slack` succeeds on any 2xx status; an exception is a failure. */
  predicate SlackDelivered(r: SlackReply) {
    r.SlackStatus? && 200 <= r.code < 300
  }

  /** The number of conversations among the first `n` that Slack accepted. */
  function CountDelivered(slack: nat -> SlackReply, n: nat): (c: nat)
    ensures c <= n
  {
    if n == 0 then 0 else CountDelivered(slack, n - 1) + (if SlackDelivered(slack(n - 1)) then 1 else 0)
  }

  /** The fan-out loop of `main`. */
  method SendAllToSlack(conversations: seq<Json>, slack: nat -> SlackReply) returns (sent: nat)
    ensures sent == CountDelivered(slack, |conversations|)
  {
    sent := 0;
    for i := 0 to |conversations|
      invariant sent == CountDelivered(slack, i)
    {
      if SlackDelivered(slack(i)) {
        sent := sent + 1;
      }
    }
  }

  /** Every post answered with a 2xx status counts, and nothing else does. */
  lemma {:induction false} CountDeliveredSpec(slack: nat -> SlackReply, n: nat)
    ensures CountDelivered(slack, n) == n <==> forall i :: 0 <= i < n ==> SlackDelivered(slack(i))
    ensures CountDelivered(slack, n) == 0 <==> forall i :: 0 <= i < n ==> !SlackDelivered(slack(i))
  {
    if n > 0 {
      CountDeliveredSpec(slack, n - 1);
    }
  }

  /** What `main` does: a raising fetch ends the run before the JSON file is
      written or anything is sent; otherwise the records are saved and, when
      a Slack webhook is configured, each one is posted. */
  datatype VoiceRun = VoiceRun(saved: Option<seq<Json>>, slackSent: Option<nat>)

  function VoiceMain(fetch: Fetch, slackConfigured: bool, slack: nat -> SlackReply): (r: VoiceRun)
    requires fetch.status != Unfinished
    ensures fetch.status == Failed ==> r == VoiceRun(None, None)
    ensures fetch.status == Done ==> r.saved == Some(fetch.items)
    ensures r.slackSent.Some? <==> fetch.status == Done && slackConfigured
    ensures r.slackSent.Some? ==> r.slackSent.value == CountDelivered(slack, |fetch.items|)
  {
    if fetch.status == Failed then VoiceRun(None, None)
    else
      assert fetch.status == Done;
      VoiceRun(Some(fetch.items), if slackConfigured then Some(CountDelivered(slack, |fetch.items|)) else None)
  }
}
