/**
 * The export-API fetcher (`voice_conversations_api.py` at the top of the
 * repository): one export request filtered by `flow_filter`, a second one
 * by `flow_id` when the first brought no voice conversation, the JSON
 * reshaped into records of nine fixed keys, a distribution of flow types,
 * then the usual save, send and timestamp steps.
 *
 * The network is not modelled: `first` and `second` are what the two GETs
 * gave (the second is looked at only when it is made). `json.loads` is the
 * parameter `loads` (`None` for a decode error) and the `fromisoformat` /
 * `strftime` rendering of a creation time is `render` (`None` when parsing
 * fails).
 */
module ApiQuery {
  import opened Options
  import opened Json
  import opened PsqlTable
  import opened VoiceSend
  import VoiceApi
  import WorkatoQa

  type HttpReply = VoiceApi.HttpReply

  /** The two ways the export request selects the voice flow. */
  datatype Selector = FlowFilter | FlowId

  /** The value both selectors carry. */
  const VoiceFlow: seq<string> := ["wealthsimple_voice"]

  /** The conversation list `conversations` of the first check: the body
      itself when it is a list, else `data.get('conversations') or
      data.get('data') or []`; `None` when that expression raises (`.get`
      on something that is neither a list nor a dictionary). */
  function FirstListing(data: Json): Option<Json> {
    match data
    case Arr(_) => Some(data)
    case Obj(fields) => Some(Or(Get(fields, "conversations"), Or(Get(fields, "data"), Arr([]))))
    case _ => None
  }

  /** `any(c.get('flow_type') == 'VOICE' for c in conversations)`, stopping
      at the first voice item; an element that is not a dictionary before it
      raises, which leads to the fallback just as `False` does. */
  function AnyVoice(items: seq<Json>): (r: bool)
    ensures r ==> exists i :: 0 <= i < |items| && items[i].Obj? && VoiceApi.IsVoice(items[i].fields)
  {
    if items == [] then false
    else if !items[0].Obj? then false
    else if VoiceApi.IsVoice(items[0].fields) then true
    else AnyVoice(items[1..])
  }

  /** Whether the `flow_filter` response is accepted as it is: status 200, a
      body that decodes, and a voice conversation in its listing. Iterating
      a listing that is not a list yields nothing or raises. */
  predicate FirstAccepted(first: HttpReply) {
    && first.Reply? && first.status == 200 && first.body.Some?
    && var listing := FirstListing(first.body.value);
       listing.Some? && listing.value.Arr? && AnyVoice(listing.value.items)
  }

  /** What `run_decagon_api_query` returned and which requests it made. */
  datatype QueryResult = QueryResult(text: Option<string>, requests: seq<Selector>)

  /** `run_decagon_api_query()`: no key, no request; a first request that
      raises ends the query (the outer handler catches it); an accepted first
      response is returned; otherwise the `flow_id` request decides. */
  function RunDecagonApiQuery(apiKey: Option<string>, first: HttpReply, second: HttpReply): (q: QueryResult)
    ensures apiKey.None? || apiKey == Some("") ==> q == QueryResult(None, [])
    ensures q.requests != [] ==> q.requests[0] == FlowFilter
    ensures |q.requests| == 2 <==>
      apiKey.Some? && apiKey.value != "" && !first.Raised? && !FirstAccepted(first)
    ensures |q.requests| <= 2 && (q.requests == [] ==> q.text.None?)
  {
    if apiKey.None? || apiKey.value == "" then QueryResult(None, [])
    else if first.Raised? then QueryResult(None, [FlowFilter])
    else if FirstAccepted(first) then QueryResult(Some(first.text), [FlowFilter])
    else if second.Raised? || second.status != 200 then QueryResult(None, [FlowFilter, FlowId])
    else QueryResult(Some(second.text), [FlowFilter, FlowId])
  }

  /** A query answer is always the text of a status-200 response: of the
      first request exactly when it listed a voice conversation, otherwise
      of the fallback. */
  lemma QueryAnswerFrom200(apiKey: Option<string>, first: HttpReply, second: HttpReply)
    ensures var q := RunDecagonApiQuery(apiKey, first, second);
      q.text.Some? ==>
        || (q.requests == [FlowFilter] && FirstAccepted(first) && q.text.value == first.text)
        || (q.requests == [FlowFilter, FlowId] && second.Reply? && second.status == 200 && q.text.value == second.text)
    ensures var q := RunDecagonApiQuery(apiKey, first, second);
      apiKey.Some? && apiKey.value != "" && FirstAccepted(first) ==> q == QueryResult(Some(first.text), [FlowFilter])
  {
  }

  // ---------------------------------------------------------------------
  // `parse_api_results`

  /** The shape dispatch: a list as it is, else the `conversations` entry of
      a dictionary, else its `data` entry; `None` for a decode error or any
      other shape. */
  function Dispatch(decoded: Option<Json>): (r: Option<Json>)
    ensures decoded.None? ==> r.None?
    ensures decoded.Some? && decoded.value.Arr? ==> r == decoded
    ensures decoded.Some? && decoded.value.Obj? ==>
      var f := decoded.value.fields;
      r == if "conversations" in f then Some(f["conversations"]) else if "data" in f then Some(f["data"]) else None
    ensures decoded.Some? && !decoded.value.Arr? && !decoded.value.Obj? ==> r.None?
  {
    if decoded.None? then None
    else match decoded.value
      case Arr(_) => decoded
      case Obj(f) =>
        if "conversations" in f then Some(f["conversations"])
        else if "data" in f then Some(f["data"])
        else None
      case _ => None
  }

  /** The nine keys of a processed conversation. */
  const ApiKeys: seq<string> := [
    "conversation_id", "conversation_url", "csat", "deflected", "summary",
    "created_at", "tags", "metadata", "flow_type"]

  /** A processed conversation. */
  type Record = map<string, Json>

  /** `{k: conv.get(k, '') for the nine keys}` */
  function Process(conv: map<string, Json>): (r: Record)
    ensures r.Keys == set k | k in ApiKeys
  {
    map k | k in ApiKeys :: GetOr(conv, k, Str(""))
  }

  /** Processing keeps the nine keys' values, fills the missing ones with
      `''`, drops every other key, and gives back an already processed
      record unchanged. */
  lemma ProcessSpec(conv: map<string, Json>)
    ensures forall k :: k in ApiKeys && k in conv ==> Process(conv)[k] == conv[k]
    ensures forall k :: k in ApiKeys && k !in conv ==> Process(conv)[k] == Str("")
    ensures forall k :: k !in ApiKeys ==> k !in Process(conv)
    ensures Process(Process(conv)) == Process(conv)
  {
  }

  /** The list the processing loop walks, when the dispatch chose one;
      walking anything else yields nothing or raises. */
  function Listing(decoded: Option<Json>): Option<seq<Json>> {
    match Dispatch(decoded)
    case Some(Arr(items)) => Some(items)
    case _ => None
  }

  /** Every conversation of a list of dictionaries, processed, in order. */
  function ProcessAll(items: seq<Json>): (r: seq<Record>)
    requires forall i :: 0 <= i < |items| ==> items[i].Obj?
    ensures |r| == |items| && forall i :: 0 <= i < |items| ==> r[i] == Process(items[i].fields)
  {
    seq(|items|, i requires 0 <= i < |items| => Process(items[i].fields))
  }

  /** What parsing the decoded output gives: `[]` when no list was chosen or
      an element is not a dictionary, otherwise every element processed. */
  function Parsed(decoded: Option<Json>): (r: seq<Record>)
    ensures r != [] ==> Listing(decoded).Some? && |r| == |Listing(decoded).value|
    ensures forall x :: x in r ==> x.Keys == set k | k in ApiKeys
  {
    match Listing(decoded)
    case None => []
    case Some(items) =>
      if exists i :: 0 <= i < |items| && !items[i].Obj? then []
      else
        var r := ProcessAll(items);
        assert forall x :: x in r ==> exists i :: 0 <= i < |items| && x == Process(items[i].fields);
        r
  }

  /** `parse_api_results(output)` on the decoded output: the loop over the
      conversations; an element that is not a dictionary raises and the
      handler returns `[]`. */
  method ParseApiResults(decoded: Option<Json>) returns (processed: seq<Record>)
    ensures processed == Parsed(decoded)
    ensures Listing(decoded).None? ==> processed == []
    ensures Listing(decoded).Some? ==>
      var items := Listing(decoded).value;
      if exists i :: 0 <= i < |items| && !items[i].Obj? then processed == []
      else |processed| == |items| && forall i :: 0 <= i < |items| ==> processed[i] == Process(items[i].fields)
  {
    var listing := Listing(decoded);
    if listing.None? {
      return [];
    }
    var conversations := listing.value;
    processed := [];
    for i := 0 to |conversations|
      invariant forall j :: 0 <= j < i ==> conversations[j].Obj?
      invariant |processed| == i
      invariant forall j :: 0 <= j < i ==> processed[j] == Process(conversations[j].fields)
    {
      var conv := conversations[i];
      if !conv.Obj? {
        return [];
      }
      processed := processed + [Process(conv.fields)];
    }
  }

  /** The conversations the fetch gives: none for a failed or empty query,
      otherwise the parse of the decoded text. */
  function Fetched(apiKey: Option<string>, first: HttpReply, second: HttpReply,
                   loads: string -> Option<Json>): (r: seq<Record>)
    ensures r != [] ==> RunDecagonApiQuery(apiKey, first, second).text.Some?
    ensures apiKey.None? || apiKey == Some("") ==> r == []
    ensures forall x :: x in r ==> x.Keys == set k | k in ApiKeys
  {
    var q := RunDecagonApiQuery(apiKey, first, second);
    if q.text.None? || q.text.value == "" then [] else Parsed(loads(q.text.value))
  }

  /** `get_voice_conversations_from_api()`: a failed or empty query gives
      no conversations, otherwise the parse of its text. */
  method GetVoiceConversationsFromApi(apiKey: Option<string>, first: HttpReply, second: HttpReply,
                                      loads: string -> Option<Json>) returns (conversations: seq<Record>)
    ensures var q := RunDecagonApiQuery(apiKey, first, second);
      q.text.None? || q.text == Some("") ==> conversations == []
    ensures var q := RunDecagonApiQuery(apiKey, first, second);
      q.text.Some? && q.text.value != "" && Listing(loads(q.text.value)).Some? ==>
        var items := Listing(loads(q.text.value)).value;
        (forall i :: 0 <= i < |items| ==> items[i].Obj?) ==>
          |conversations| == |items| && forall i :: 0 <= i < |items| ==> conversations[i] == Process(items[i].fields)
    ensures forall r :: r in conversations ==> r.Keys == set k | k in ApiKeys
    ensures conversations == Fetched(apiKey, first, second, loads)
  {
    var q := RunDecagonApiQuery(apiKey, first, second);
    if q.text.None? || q.text.value == "" {
      return [];
    }
    conversations := ParseApiResults(loads(q.text.value));
  }

  // ---------------------------------------------------------------------
  // The flow-type distribution

  /** `conv.get('flow_type', 'unknown')` */
  function FlowType(conv: Record): Json {
    GetOr(conv, "flow_type", Str("unknown"))
  }

  /** How many of the conversations have flow type `t`. */
  function Occurrences(convs: seq<Record>, t: Json): nat {
    if convs == [] then 0
    else Occurrences(convs[..|convs| - 1], t) + (if FlowType(convs[|convs| - 1]) == t then 1 else 0)
  }

  /** The flow types of `convs` in order of first appearance: the key order
      of a dictionary filled one conversation at a time. */
  function FirstFlowTypes(convs: seq<Record>): (order: seq<Json>)
    ensures |order| <= |convs|
  {
    if convs == [] then []
    else
      var order := FirstFlowTypes(convs[..|convs| - 1]);
      var t := FlowType(convs[|convs| - 1]);
      if t in order then order else order + [t]
  }

  /** The position of the first conversation with flow type `t`, or
      `|convs|` when there is none. */
  function FirstAt(convs: seq<Record>, t: Json): (k: nat)
    ensures k <= |convs|
    ensures k < |convs| ==> FlowType(convs[k]) == t
    ensures forall j :: 0 <= j < k ==> FlowType(convs[j]) != t
  {
    if convs == [] then 0
    else if FlowType(convs[0]) == t then 0
    else 1 + FirstAt(convs[1..], t)
  }

  /** A position holding `t` with no `t` before it is where `t` first occurs. */
  lemma FirstAtUnique(convs: seq<Record>, t: Json, k: nat)
    requires k < |convs| && FlowType(convs[k]) == t
    requires forall j :: 0 <= j < k ==> FlowType(convs[j]) != t
    ensures FirstAt(convs, t) == k
  {
  }

  /** `order` lists every flow type of `convs` once, each of them occurring,
      in the order of their first occurrences. */
  predicate FirstOccurrenceOrder(convs: seq<Record>, order: seq<Json>) {
    && Distinct(order)
    && (forall i :: 0 <= i < |convs| ==> FlowType(convs[i]) in order)
    && (forall a :: 0 <= a < |order| ==> FirstAt(convs, order[a]) < |convs|)
    && (forall a, b :: 0 <= a < b < |order| ==> FirstAt(convs, order[a]) < FirstAt(convs, order[b]))
  }

  /** A conversation added at the end moves no earlier first occurrence. */
  lemma FirstAtExtend(convs: seq<Record>, c: Record, t: Json)
    requires FirstAt(convs, t) < |convs|
    ensures FirstAt(convs + [c], t) == FirstAt(convs, t)
  {
    var k := FirstAt(convs, t);
    assert (convs + [c])[k] == convs[k];
    FirstAtUnique(convs + [c], t, k);
  }

  /** One more conversation adds its flow type at the end, if it is new. */
  lemma FirstFlowTypesStep(convs: seq<Record>, i: nat)
    requires i < |convs|
    ensures var before := FirstFlowTypes(convs[..i]);
      FirstFlowTypes(convs[..i + 1]) == if FlowType(convs[i]) in before then before else before + [FlowType(convs[i])]
  {
    assert convs[..i + 1][..i] == convs[..i];
  }

  /** A flow type seen before: the order stays as it is. */
  lemma SeenFlowTypeStep(convs: seq<Record>, c: Record, order: seq<Json>)
    requires FirstOccurrenceOrder(convs, order) && FlowType(c) in order
    ensures FirstOccurrenceOrder(convs + [c], order)
  {
    var all := convs + [c];
    forall a | 0 <= a < |order|
      ensures FirstAt(all, order[a]) == FirstAt(convs, order[a])
    {
      FirstAtExtend(convs, c, order[a]);
    }
    forall i | 0 <= i < |all|
      ensures FlowType(all[i]) in order
    {
      if i < |convs| { assert all[i] == convs[i]; }
    }
  }

  /** A new flow type joins the end of the order. */
  lemma NewFlowTypeStep(convs: seq<Record>, c: Record, order: seq<Json>)
    requires FirstOccurrenceOrder(convs, order) && FlowType(c) !in order
    ensures FirstOccurrenceOrder(convs + [c], order + [FlowType(c)])
  {
    var all := convs + [c];
    var t := FlowType(c);
    var order2 := order + [t];
    forall a | 0 <= a < |order|
      ensures FirstAt(all, order[a]) == FirstAt(convs, order[a])
    {
      FirstAtExtend(convs, c, order[a]);
    }
    forall j | 0 <= j < |convs|
      ensures FlowType(all[j]) != t
    {
      assert all[j] == convs[j];
      assert FlowType(convs[j]) in order;
    }
    FirstAtUnique(all, t, |convs|);
    forall a | 0 <= a < |order2|
      ensures FirstAt(all, order2[a]) < |all|
    {
      if a < |order| { assert order2[a] == order[a]; }
    }
    forall a, b | 0 <= a < b < |order2|
      ensures FirstAt(all, order2[a]) < FirstAt(all, order2[b])
    {
      assert order2[a] == order[a];
      if b < |order| { assert order2[b] == order[b]; }
    }
    forall i | 0 <= i < |all|
      ensures FlowType(all[i]) in order2
    {
      if i < |convs| { assert all[i] == convs[i]; }
    }
  }

  /** `FirstFlowTypes` lists every flow type once, each where it first
      occurs, and in the order of those first occurrences. */
  lemma {:induction false} FirstFlowTypesSpec(convs: seq<Record>)
    ensures var order := FirstFlowTypes(convs);
      && Distinct(order)
      && (forall i :: 0 <= i < |convs| ==> FlowType(convs[i]) in order)
      && (forall a :: 0 <= a < |order| ==> FirstAt(convs, order[a]) < |convs|)
      && (forall a, b :: 0 <= a < b < |order| ==> FirstAt(convs, order[a]) < FirstAt(convs, order[b]))
  {
    FirstFlowTypesOrder(convs);
  }

  /** The same facts as one predicate, by induction on the conversations. */
  lemma {:induction false} FirstFlowTypesOrder(convs: seq<Record>)
    ensures FirstOccurrenceOrder(convs, FirstFlowTypes(convs))
  {
    if convs != [] {
      var prefix := convs[..|convs| - 1];
      var c := convs[|convs| - 1];
      assert convs == prefix + [c];
      FirstFlowTypesOrder(prefix);
      if FlowType(c) in FirstFlowTypes(prefix) {
        SeenFlowTypeStep(prefix, c, FirstFlowTypes(prefix));
      } else {
        NewFlowTypeStep(prefix, c, FirstFlowTypes(prefix));
      }
    }
  }

  /** The counts of `keys`, added up. */
  function SumOver(keys: seq<Json>, counts: map<Json, nat>): nat {
    if keys == [] then 0
    else SumOver(keys[..|keys| - 1], counts) + (if keys[|keys| - 1] in counts then counts[keys[|keys| - 1]] else 0)
  }

  /** Changing the count of a key that is not listed changes no sum. */
  lemma {:induction false} SumOverFrame(keys: seq<Json>, counts: map<Json, nat>, t: Json, c: nat)
    requires t !in keys
    ensures SumOver(keys, counts[t := c]) == SumOver(keys, counts)
  {
    if keys != [] {
      SumOverFrame(keys[..|keys| - 1], counts, t, c);
    }
  }

  /** Adding one to the count of a key listed once adds one to the sum. */
  lemma {:induction false} SumOverBump(keys: seq<Json>, counts: map<Json, nat>, t: Json)
    requires Distinct(keys) && t in keys && t in counts
    ensures SumOver(keys, counts[t := counts[t] + 1]) == SumOver(keys, counts) + 1
  {
    var init := keys[..|keys| - 1];
    assert Distinct(init);
    if keys[|keys| - 1] == t {
      assert t !in init;
      SumOverFrame(init, counts, t, counts[t] + 1);
    } else {
      assert t in init;
      SumOverBump(init, counts, t);
    }
  }

  /** Python's dictionary keys must be hashable. */
  predicate AllHashable(convs: seq<Record>) {
    forall i :: 0 <= i < |convs| ==> Hashable(FlowType(convs[i]))
  }

  /** One more conversation adds one to the count of its own flow type. */
  lemma OccurrencesStep(convs: seq<Record>, i: nat)
    requires i < |convs|
    ensures forall t ::
      Occurrences(convs[..i + 1], t) == Occurrences(convs[..i], t) + (if FlowType(convs[i]) == t then 1 else 0)
  {
    assert convs[..i + 1][..i] == convs[..i];
  }

  /** `flow_types[t] = flow_types.get(t, 0) + 1`, with the order in which
      the dictionary lists its keys. */
  method Tally(order: seq<Json>, counts: map<Json, nat>, t: Json) returns (order2: seq<Json>, counts2: map<Json, nat>)
    requires Distinct(order) && counts.Keys == (set x | x in order)
    ensures Distinct(order2) && counts2.Keys == (set x | x in order2)
    ensures counts2 == counts[t := (if t in counts then counts[t] else 0) + 1]
    ensures t in order ==> order2 == order
    ensures t !in order ==> order2 == order + [t]
    ensures SumOver(order2, counts2) == SumOver(order, counts) + 1
  {
    if t in counts {
      SumOverBump(order, counts, t);
      order2, counts2 := order, counts[t := counts[t] + 1];
    } else {
      NewKey(order, counts, t);
      order2, counts2 := order + [t], counts[t := 1];
    }
  }

  /** A first occurrence joins the end of the key order with count one. */
  lemma NewKey(order: seq<Json>, counts: map<Json, nat>, t: Json)
    requires Distinct(order) && counts.Keys == (set x | x in order) && t !in counts
    ensures Distinct(order + [t]) && counts[t := 1].Keys == (set x | x in order + [t])
    ensures SumOver(order + [t], counts[t := 1]) == SumOver(order, counts) + 1
  {
    SumOverFrame(order, counts, t, 1);
    assert (order + [t])[..|order|] == order;
  }

  /** Counting one more conversation keeps every count exact. */
  lemma CountsStep(convs: seq<Record>, i: nat, counts: map<Json, nat>)
    requires i < |convs|
    requires forall j :: 0 <= j < i ==> FlowType(convs[j]) in counts
    requires forall x :: x in counts ==> counts[x] == Occurrences(convs[..i], x)
    ensures var t := FlowType(convs[i]);
      var c2 := counts[t := (if t in counts then counts[t] else 0) + 1];
      && (forall j :: 0 <= j <= i ==> FlowType(convs[j]) in c2)
      && (forall x :: x in c2 ==> c2[x] == Occurrences(convs[..i + 1], x))
  {
    var t := FlowType(convs[i]);
    OccurrencesStep(convs, i);
    if t !in counts {
      OccurrencesAbsent(convs[..i], t);
    }
  }

  /** The state of the counting loop after the first `i` conversations:
      their distinct flow types in `order`, each with its exact count. */
  predicate Counted(convs: seq<Record>, i: nat, order: seq<Json>, counts: map<Json, nat>)
    requires i <= |convs|
  {
    && Distinct(order) && counts.Keys == (set t | t in order)
    && (forall j :: 0 <= j < i ==> FlowType(convs[j]) in counts)
    && (forall t :: t in counts ==> counts[t] == Occurrences(convs[..i], t))
    && SumOver(order, counts) == i
  }

  /** One turn of the counting loop: `Tally` of the next conversation's
      flow type keeps the loop's state exact. */
  method CountOne(convs: seq<Record>, i: nat, order: seq<Json>, counts: map<Json, nat>)
    returns (order2: seq<Json>, counts2: map<Json, nat>)
    requires i < |convs| && Counted(convs, i, order, counts) && order == FirstFlowTypes(convs[..i])
    ensures Counted(convs, i + 1, order2, counts2) && order2 == FirstFlowTypes(convs[..i + 1])
  {
    var t := FlowType(convs[i]);
    FirstFlowTypesStep(convs, i);
    if t in order {
      CountedSeen(convs, i, order, counts);
    } else {
      CountedNew(convs, i, order, counts);
    }
    order2, counts2 := Tally(order, counts, t);
  }

  /** The next flow type was counted before: its count goes up by one. */
  lemma CountedSeen(convs: seq<Record>, i: nat, order: seq<Json>, counts: map<Json, nat>)
    requires i < |convs| && Counted(convs, i, order, counts) && FlowType(convs[i]) in order
    ensures var t := FlowType(convs[i]); Counted(convs, i + 1, order, counts[t := counts[t] + 1])
  {
    var t := FlowType(convs[i]);
    CountsStep(convs, i, counts);
    SumOverBump(order, counts, t);
  }

  /** The next flow type is new: it joins the order with count one. */
  lemma CountedNew(convs: seq<Record>, i: nat, order: seq<Json>, counts: map<Json, nat>)
    requires i < |convs| && Counted(convs, i, order, counts) && FlowType(convs[i]) !in order
    ensures var t := FlowType(convs[i]); Counted(convs, i + 1, order + [t], counts[t := 1])
  {
    var t := FlowType(convs[i]);
    CountsStep(convs, i, counts);
    NewKey(order, counts, t);
  }

  /** One more hashable flow type extends the hashable prefix. */
  lemma HashableStep(convs: seq<Record>, i: nat)
    requires i < |convs| && Hashable(FlowType(convs[i]))
    requires forall j :: 0 <= j < i ==> Hashable(FlowType(convs[j]))
    ensures forall j :: 0 <= j < i + 1 ==> Hashable(FlowType(convs[j]))
  {
  }

  /** The loop's state after every conversation is the whole distribution. */
  lemma CountedAll(convs: seq<Record>, order: seq<Json>, counts: map<Json, nat>)
    requires Counted(convs, |convs|, order, counts) && order == FirstFlowTypes(convs[..|convs|])
    ensures Distinct(order) && order == FirstFlowTypes(convs) && counts.Keys == (set t | t in order)
    ensures forall i :: 0 <= i < |convs| ==> FlowType(convs[i]) in counts
    ensures forall t :: t in counts ==> counts[t] == Occurrences(convs, t)
    ensures SumOver(order, counts) == |convs|
  {
    assert convs[..|convs|] == convs;
  }

  /** The `flow_types` loop of `main`: the distinct flow types in order of
      first appearance with their counts, which add up to the number of
      conversations. An unhashable flow type makes the subscript raise,
      which nothing catches: the result is then `None`. */
  method CountFlowTypes(convs: seq<Record>) returns (dist: Option<(seq<Json>, map<Json, nat>)>)
    ensures dist.None? <==> !AllHashable(convs)
    ensures dist.Some? ==>
      var (order, counts) := dist.value;
      && Distinct(order)
      && order == FirstFlowTypes(convs)
      && counts.Keys == (set t | t in order)
      && (forall i :: 0 <= i < |convs| ==> FlowType(convs[i]) in counts)
      && (forall t :: t in counts ==> counts[t] == Occurrences(convs, t))
      && SumOver(order, counts) == |convs|
  {
    var order: seq<Json> := [];
    var counts: map<Json, nat> := map[];
    for i := 0 to |convs|
      invariant forall j :: 0 <= j < i ==> Hashable(FlowType(convs[j]))
      invariant Counted(convs, i, order, counts)
      invariant order == FirstFlowTypes(convs[..i])
    {
      var flowType := FlowType(convs[i]);
      if !Hashable(flowType) {
        return None;
      }
      HashableStep(convs, i);
      order, counts := CountOne(convs, i, order, counts);
    }
    CountedAll(convs, order, counts);
    dist := Some((order, counts));
  }

  /** A flow type no conversation has is counted zero times. */
  lemma {:induction false} OccurrencesAbsent(convs: seq<Record>, t: Json)
    requires forall j :: 0 <= j < |convs| ==> FlowType(convs[j]) != t
    ensures Occurrences(convs, t) == 0
  {
    if convs != [] {
      OccurrencesAbsent(convs[..|convs| - 1], t);
    }
  }

  // ---------------------------------------------------------------------
  // Sending and `main`

  /** The creation time sent: a non-empty string that `render` accepts is
      replaced by its rendering; anything else is sent as it is (a value
      without `.replace` raises `AttributeError`, which is caught). */
  function SentCreatedAt(v: Json, render: string -> Option<string>): Json {
    if Truthy(v) && v.Str? && render(v.s).Some? then Str(render(v.s).value) else v
  }

  /** The JSON body of one POST: `conversation.get(k)` for the nine keys,
      with the creation time rendered. */
  function Payload(conversation: Record, render: string -> Option<string>): map<string, Json> {
    map k | k in ApiKeys ::
      if k == "created_at" then SentCreatedAt(Get(conversation, k), render) else Get(conversation, k)
  }

  /** A processed record is sent as it is, except for its creation time. */
  lemma PayloadOfRecord(conv: map<string, Json>, render: string -> Option<string>)
    ensures var r := Process(conv);
      var p := Payload(r, render);
      && p.Keys == r.Keys
      && (forall k :: k in r && k != "created_at" ==> p[k] == r[k])
      && p["created_at"] == SentCreatedAt(r["created_at"], render)
  {
  }

  /** The flow-type distribution of `convs`: the distinct flow types in
      `order`, in order of first appearance, each counted exactly as often
      as it occurs, the counts adding up to the number of conversations. */
  predicate Distribution(convs: seq<Record>, order: seq<Json>, counts: map<Json, nat>) {
    && Distinct(order)
    && order == FirstFlowTypes(convs)
    && counts.Keys == (set t | t in order)
    && (forall i :: 0 <= i < |convs| ==> FlowType(convs[i]) in counts)
    && (forall t :: t in counts ==> counts[t] == Occurrences(convs, t))
    && SumOver(order, counts) == |convs|
  }

  /** How a run ended. */
  datatype TopRun =
    | NoConversations
    | Crashed(fetched: seq<Record>)   // an unhashable flow type
    | Ran(saved: seq<Record>, order: seq<Json>, counts: map<Json, nat>,
          sentCount: Option<nat>, posts: seq<map<string, Json>>, lastRun: Json)

  /** How `main` ends on the fetched conversations `convs`: with none, it
      stops before the timestamp is saved; an unhashable flow type crashes
      the counting loop; otherwise the conversations are saved with their
      flow-type distribution, posted in order when a webhook is configured
      (the sent count being the 200 replies), and the timestamp is saved. */
  predicate RunOf(run: TopRun, convs: seq<Record>, render: string -> Option<string>,
                  url: Option<string>, replies: nat -> WorkatoQa.Response, now: int) {
    && (run.NoConversations? <==> convs == [])
    && (run.Crashed? <==> convs != [] && !AllHashable(convs))
    && (run.Crashed? ==> run.fetched == convs)
    && (run.Ran? ==>
          && run.saved == convs
          && Distribution(convs, run.order, run.counts)
          && run.lastRun == LastRunRecord(now)
          && (run.sentCount.Some? <==> WebhookConfigured(url))
          && (!WebhookConfigured(url) ==> run.posts == [])
          && (WebhookConfigured(url) ==>
                run.sentCount == Some(SentCount(replies, |convs|)) && |run.posts| == |convs| &&
                forall i :: 0 <= i < |convs| ==> run.posts[i] == Payload(convs[i], render)))
  }

  /** Everything `main` does after the fetch. */
  method CountAndSend(convs: seq<Record>, render: string -> Option<string>,
                      url: Option<string>, replies: nat -> WorkatoQa.Response, now: int) returns (run: TopRun)
    ensures RunOf(run, convs, render, url, replies, now)
  {
    if convs == [] {
      return NoConversations;
    }
    var dist := CountFlowTypes(convs);
    if dist.None? {
      return Crashed(convs);
    }
    var sent: Option<nat> := None;
    var posts := [];
    if WebhookConfigured(url) {
      var count;
      count, posts := SendAll(convs, (c: Record) => Payload(c, render), replies);
      sent := Some(count);
    }
    run := Ran(convs, dist.value.0, dist.value.1, sent, posts, LastRunRecord(now));
  }

  /** `main()`: fetch, then count, save and send what came back. A missing
      or empty API key makes no request and ends the run with nothing. */
  method TopApiMain(apiKey: Option<string>, first: HttpReply, second: HttpReply,
                    loads: string -> Option<Json>, render: string -> Option<string>,
                    url: Option<string>, replies: nat -> WorkatoQa.Response, now: int) returns (run: TopRun)
    ensures apiKey.None? || apiKey == Some("") ==> run.NoConversations?
    ensures RunOf(run, Fetched(apiKey, first, second, loads), render, url, replies, now)
  {
    var conversations := GetVoiceConversationsFromApi(apiKey, first, second, loads);
    run := CountAndSend(conversations, render, url, replies, now);
  }
}
