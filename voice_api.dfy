/**
 * The API fetcher of the voice folder (`decagon_voice/voice_conversations_api.py`):
 * one GET of the last day's conversations, a filter keeping the voice
 * conversations that have a summary, each kept one reformatted into the
 * nine warehouse columns, then the same save, send and timestamp steps as
 * the warehouse fetcher.
 *
 * The network is not modelled: `reply` is what the GET gave. What the
 * model leaves to the libraries (the `DECAGON_WEB_URL` setting,
 * `json.dumps`, `str()` of a list or dictionary, and the EST rendering of
 * a non-empty timestamp) is gathered in a `Formatting` value.
 */
module VoiceApi {
  import opened Options
  import opened PyText
  import opened Json
  import opened PsqlTable
  import opened VoiceSend
  import WorkatoQa

  /** What one `requests.get` gave. */
  datatype HttpReply =
    | Raised                                               // the request itself raised
    | Reply(status: int, text: string, body: Option<Json>)  // `body`: what `response.json()` decoded, `None` if it raised

  datatype Formatting = Formatting(
    webUrl: string,
    dumps: Json -> string,
    reprOf: Json -> string,
    est: Json -> string)

  /** A reformatted conversation. */
  type Record = map<string, Json>

  /** Python's `str(v)`; lists and dictionaries use their `repr`. */
  function StrOf(v: Json, reprOf: Json -> string): string {
    match v
    case Null => "None"
    case Bool(b) => BoolText(b)
    case Num(n) => IntToString(n)
    case Str(s) => s
    case _ => reprOf(v)
  }

  /** `format_timestamp_est(utc_timestamp)`: nothing for a false value,
      otherwise the library rendering (which also covers its own fallback to
      `str()` when parsing fails). */
  function FormatTimestampEst(v: Json, est: Json -> string): string {
    if !Truthy(v) then "" else est(v)
  }

  /** The values of the record built for a kept conversation, column by
      column. */
  function FormatValues(conv: map<string, Json>, fmt: Formatting): (v: seq<Json>)
    ensures |v| == |WarehouseColumns|
  {
    var id := GetOr(conv, "conversation_id", Str(""));
    var created := GetOr(conv, "created_at", Str(""));
    [ id,
      Str(fmt.webUrl + "/conversations/" + StrOf(id, fmt.reprOf)),
      GetOr(conv, "csat", Str("")),
      Str(StrOf(GetOr(conv, "deflected", Bool(false)), fmt.reprOf)),
      GetOr(conv, "summary", Str("")),
      created,
      Str(FormatTimestampEst(created, fmt.est)),
      Str(fmt.dumps(GetOr(conv, "tags", Arr([])))),
      Str(fmt.dumps(GetOr(conv, "metadata", Obj(map[])))) ]
  }

  /** The record built for a kept conversation. */
  function Format(conv: map<string, Json>, fmt: Formatting): Record {
    Zip(WarehouseColumns, FormatValues(conv, fmt))
  }

  /** The record has the nine columns, each holding its value. */
  lemma FormatColumns(conv: map<string, Json>, fmt: Formatting)
    ensures Format(conv, fmt).Keys == set k | k in WarehouseColumns
    ensures forall i :: 0 <= i < |WarehouseColumns| ==>
      Format(conv, fmt)[WarehouseColumns[i]] == FormatValues(conv, fmt)[i]
  {
    ColumnsDistinct();
    ZipSpec(WarehouseColumns, FormatValues(conv, fmt));
  }

  /** A reformatted record has exactly the nine warehouse columns. Its URL
      is the web address followed by `/conversations/` and the text of its
      own id; `deflected` is text, `False` when the conversation has none;
      `tags` and `metadata` are serialised, an empty list and an empty
      dictionary when absent; and a conversation without a creation time
      gets empty creation fields. */
  lemma FormatSpec(conv: map<string, Json>, fmt: Formatting)
    ensures var r := Format(conv, fmt);
      && r.Keys == (set k | k in WarehouseColumns)
      && Get(r, "conversation_id") == GetOr(conv, "conversation_id", Str(""))
      && Get(r, "conversation_url") == Str(fmt.webUrl + "/conversations/" + StrOf(Get(r, "conversation_id"), fmt.reprOf))
      && Get(r, "summary") == GetOr(conv, "summary", Str(""))
      && Get(r, "deflected").Str?
      && ("deflected" !in conv ==> Get(r, "deflected") == Str("False"))
      && ("tags" !in conv ==> Get(r, "tags") == Str(fmt.dumps(Arr([]))))
      && ("metadata" !in conv ==> Get(r, "metadata") == Str(fmt.dumps(Obj(map[]))))
      && ("created_at" !in conv ==> Get(r, "created_at_utc") == Str("") && Get(r, "created_at_est") == Str(""))
  {
    FormatColumns(conv, fmt);
    var r := Format(conv, fmt);
    var v := FormatValues(conv, fmt);
    assert WarehouseColumns[0] == "conversation_id" && Get(r, "conversation_id") == v[0];
    assert WarehouseColumns[1] == "conversation_url" && Get(r, "conversation_url") == v[1];
    assert WarehouseColumns[3] == "deflected" && Get(r, "deflected") == v[3];
    assert WarehouseColumns[4] == "summary" && Get(r, "summary") == v[4];
    assert WarehouseColumns[5] == "created_at_utc" && Get(r, "created_at_utc") == v[5];
    assert WarehouseColumns[6] == "created_at_est" && Get(r, "created_at_est") == v[6];
    assert WarehouseColumns[7] == "tags" && Get(r, "tags") == v[7];
    assert WarehouseColumns[8] == "metadata" && Get(r, "metadata") == v[8];
  }

  /** `conv.get('flow_type') == 'VOICE'` */
  predicate IsVoice(conv: map<string, Json>) {
    Get(conv, "flow_type") == Str("VOICE")
  }

  /** An element on which the filter raises: `.get` on something that is
      not a dictionary, or `.strip()` on a voice conversation's summary that
      is true but not a string. */
  predicate Raises(conv: Json) {
    !conv.Obj? ||
    (IsVoice(conv.fields) && Truthy(Get(conv.fields, "summary")) && !Get(conv.fields, "summary").Str?)
  }

  /** An element the filter keeps: a voice conversation whose summary is a
      string that is not blank. */
  predicate Kept(conv: Json) {
    conv.Obj? && IsVoice(conv.fields) &&
    Get(conv.fields, "summary").Str? && Strip(Get(conv.fields, "summary").s) != ""
  }

  /** The records for the kept elements, in order. */
  function Formatted(convs: seq<Json>, fmt: Formatting): (r: seq<Record>)
    ensures |r| <= |convs|
  {
    if convs == [] then []
    else
      var last := convs[|convs| - 1];
      Formatted(convs[..|convs| - 1], fmt) + (if Kept(last) then [Format(last.fields, fmt)] else [])
  }

  /** The filter loop of `get_voice_conversations_from_api`; an element on
      which it raises ends the whole fetch with no conversations. */
  method FilterVoice(conversations: seq<Json>, fmt: Formatting) returns (voice: seq<Record>)
    ensures (exists i :: 0 <= i < |conversations| && Raises(conversations[i])) ==> voice == []
    ensures (forall i :: 0 <= i < |conversations| ==> !Raises(conversations[i])) ==>
      voice == Formatted(conversations, fmt)
  {
    voice := [];
    for i := 0 to |conversations|
      invariant forall j :: 0 <= j < i ==> !Raises(conversations[j])
      invariant voice == Formatted(conversations[..i], fmt)
    {
      var conv := conversations[i];
      assert conversations[..i + 1][..i] == conversations[..i];
      if !conv.Obj? {
        return [];
      }
      var summary := Get(conv.fields, "summary");
      if Get(conv.fields, "flow_type") == Str("VOICE") && Truthy(summary) {
        if !summary.Str? {
          return [];
        }
        if Strip(summary.s) != "" {
          voice := voice + [Format(conv.fields, fmt)];
        }
      }
    }
    assert conversations[..|conversations|] == conversations;
  }

  /** Filtering a concatenation filters each part: the kept records keep
      the order of their conversations. */
  lemma {:induction false} FormattedConcat(a: seq<Json>, b: seq<Json>, fmt: Formatting)
    ensures Formatted(a + b, fmt) == Formatted(a, fmt) + Formatted(b, fmt)
    decreases |b|
  {
    if b != [] {
      var c := b[..|b| - 1];
      FormattedConcat(a, c, fmt);
      assert (a + b)[..|a + b| - 1] == a + c;
      var last := b[|b| - 1];
      assert (a + b)[|a + b| - 1] == last;
      var x := if Kept(last) then [Format(last.fields, fmt)] else [];
      assert Formatted(a + b, fmt) == Formatted(a + c, fmt) + x;
      assert Formatted(b, fmt) == Formatted(c, fmt) + x;
      assert (Formatted(a, fmt) + Formatted(c, fmt)) + x == Formatted(a, fmt) + (Formatted(c, fmt) + x);
    } else {
      assert a + b == a;
    }
  }

  /** A record comes out exactly for each kept conversation. */
  lemma {:induction false} FormattedMembers(convs: seq<Json>, fmt: Formatting)
    ensures forall r :: r in Formatted(convs, fmt) <==>
      exists i :: 0 <= i < |convs| && Kept(convs[i]) && r == Format(convs[i].fields, fmt)
  {
    if convs != [] {
      var init := convs[..|convs| - 1];
      FormattedMembers(init, fmt);
      forall i | 0 <= i < |init| ensures init[i] == convs[i] { }
    }
  }

  /** A record as the filter gives it: the nine columns, a non-blank
      summary, and a URL built from its own id. */
  predicate Shaped(r: Record, fmt: Formatting) {
    && r.Keys == (set k | k in WarehouseColumns)
    && Get(r, "summary").Str? && Strip(Get(r, "summary").s) != ""
    && Get(r, "conversation_url") == Str(fmt.webUrl + "/conversations/" + StrOf(Get(r, "conversation_id"), fmt.reprOf))
  }

  /** The record of a kept conversation is shaped. */
  lemma KeptShaped(c: Json, fmt: Formatting)
    requires Kept(c)
    ensures Shaped(Format(c.fields, fmt), fmt)
  {
    FormatSpec(c.fields, fmt);
  }

  /** Every record the filter gives is shaped. */
  lemma VoiceOutputShape(convs: seq<Json>, fmt: Formatting)
    ensures forall r :: r in Formatted(convs, fmt) ==> Shaped(r, fmt)
  {
    FormattedMembers(convs, fmt);
    forall r | r in Formatted(convs, fmt) ensures Shaped(r, fmt) {
      var i :| 0 <= i < |convs| && Kept(convs[i]) && r == Format(convs[i].fields, fmt);
      KeptShaped(convs[i], fmt);
    }
  }

  /** The conversation list a reply carries, or `None` on every path that
      ends the fetch with no conversations: no API key, a request that
      raised, a status other than 200, a body that does not decode, a body
      that is not a dictionary (`.get` raises), and a `conversations` entry
      that is not a list (iterating it either yields nothing or yields
      elements without `.get`). */
  function ConversationsOf(apiKey: Option<string>, reply: HttpReply): (r: Option<seq<Json>>)
    ensures apiKey.None? || apiKey == Some("") ==> r.None?
    ensures r.Some? ==> reply.Reply? && reply.status == 200 && reply.body.Some? && reply.body.value.Obj?
    ensures r.Some? <==>
      && apiKey.Some? && apiKey.value != "" && reply.Reply? && reply.status == 200
      && reply.body.Some? && reply.body.value.Obj? && GetOr(reply.body.value.fields, "conversations", Arr([])).Arr?
  {
    if apiKey.None? || apiKey.value == "" then None
    else if reply.Raised? || reply.status != 200 || reply.body.None? then None
    else if !reply.body.value.Obj? then None
    else
      match GetOr(reply.body.value.fields, "conversations", Arr([]))
      case Arr(items) => Some(items)
      case _ => None
  }

  /** The records the fetch gives: none when the reply carries no
      conversation list or an element makes the filter raise, otherwise the
      kept conversations, formatted, in order. */
  function Fetched(apiKey: Option<string>, reply: HttpReply, fmt: Formatting): (r: seq<Record>)
    ensures r != [] ==> ConversationsOf(apiKey, reply).Some?
    ensures r != [] ==> |r| <= |ConversationsOf(apiKey, reply).value|
    ensures forall x :: x in r ==> Shaped(x, fmt)
  {
    match ConversationsOf(apiKey, reply)
    case None => []
    case Some(convs) =>
      VoiceOutputShape(convs, fmt);
      if exists i :: 0 <= i < |convs| && Raises(convs[i]) then [] else Formatted(convs, fmt)
  }

  /** `get_voice_conversations_from_api()`. */
  method GetVoiceConversationsFromApi(apiKey: Option<string>, reply: HttpReply, fmt: Formatting)
    returns (voice: seq<Record>)
    ensures voice == Fetched(apiKey, reply, fmt)
    ensures ConversationsOf(apiKey, reply).None? ==> voice == []
    ensures ConversationsOf(apiKey, reply).Some? ==>
      var convs := ConversationsOf(apiKey, reply).value;
      voice == if exists i :: 0 <= i < |convs| && Raises(convs[i]) then [] else Formatted(convs, fmt)
    ensures ConversationsOf(apiKey, reply).Some? ==> |voice| <= |ConversationsOf(apiKey, reply).value|
  {
    var convs := ConversationsOf(apiKey, reply);
    if convs.None? {
      return [];
    }
    voice := FilterVoice(convs.value, fmt);
  }

  // ---------------------------------------------------------------------
  // `main`

  /** The JSON body of one POST: `conversation.get(k)` for the nine columns.
      The record's other fields are not sent; each column it has is sent
      as it is, and each it lacks as `null`. */
  function Payload(conversation: Record): (p: map<string, Json>)
    ensures p.Keys == set k | k in WarehouseColumns
    ensures forall k :: k in conversation && k in WarehouseColumns ==> p[k] == conversation[k]
    ensures forall k :: k in p && k !in conversation ==> p[k] == Null
  {
    map k | k in WarehouseColumns :: Get(conversation, k)
  }

  /** A record with exactly the nine columns is sent exactly as it is. */
  lemma PayloadIdentity(r: Record)
    requires r.Keys == set k | k in WarehouseColumns
    ensures Payload(r) == r
  {
  }

  /** How a run ended. */
  datatype ApiRun =
    | NoConversations
    | Ran(saved: seq<Record>, sentCount: Option<nat>, posts: seq<map<string, Json>>, lastRun: Json)

  /** `main()`: fetch; stop early (without saving the timestamp) when nothing
      came back; otherwise save the records, send them when a webhook is
      configured, and save the run timestamp. */
  method VoiceApiMain(apiKey: Option<string>, reply: HttpReply, fmt: Formatting, url: Option<string>,
                      replies: nat -> WorkatoQa.Response, now: int) returns (run: ApiRun)
    ensures ConversationsOf(apiKey, reply).None? ==> run.NoConversations?
    ensures run.NoConversations? <==> Fetched(apiKey, reply, fmt) == []
    ensures run.Ran? ==>
      && run.saved == Fetched(apiKey, reply, fmt)
      && run.saved != []
      && (forall r :: r in run.saved ==> Shaped(r, fmt))
      && run.lastRun == LastRunRecord(now)
      && (run.sentCount.Some? <==> WebhookConfigured(url))
      && (!WebhookConfigured(url) ==> run.posts == [])
      && (WebhookConfigured(url) ==> run.sentCount == Some(SentCount(replies, |run.saved|)) && run.posts == run.saved)
  {
    var conversations := GetVoiceConversationsFromApi(apiKey, reply, fmt);
    if conversations == [] {
      return NoConversations;
    }
    var convs := ConversationsOf(apiKey, reply).value;
    VoiceOutputShape(convs, fmt);
    assert conversations == Formatted(convs, fmt);
    var sent: Option<nat> := None;
    var posts := [];
    if WebhookConfigured(url) {
      var count;
      count, posts := SendAll(conversations, Payload, replies);
      sent := Some(count);
      forall i | 0 <= i < |conversations| ensures posts[i] == conversations[i] {
        assert Shaped(conversations[i], fmt);
        PayloadIdentity(conversations[i]);
      }
    }
    run := Ran(conversations, sent, posts, LastRunRecord(now));
  }
}
