/**
 * The webhook send loop and run bookkeeping shared, line for line, by the
 * three voice fetchers (`decagon_voice/voice_conversations_warehouse_clean.py`,
 * `decagon_voice/voice_conversations_api.py` and `voice_conversations_api.py`):
 * every record is POSTed once, in order, a send counts only when the reply
 * has status 200, and the run timestamp is a one-key JSON record.
 *
 * The webhook is not modelled: `replies(i)` is the answer to the POST of
 * the i-th record, and each script's own `payload` function says what body
 * it sends.
 */
module VoiceSend {
  import opened Options
  import opened Json
  import WorkatoQa

  /** `send_to_workato_webhook` returns `True` only for status 200; an
      exception counts as failure. */
  predicate Delivered(r: WorkatoQa.Response) {
    r == WorkatoQa.Status(200)
  }

  /** The number of the first `n` POSTs that were delivered. */
  function SentCount(replies: nat -> WorkatoQa.Response, n: nat): nat {
    if n == 0 then 0 else SentCount(replies, n - 1) + (if Delivered(replies(n - 1)) then 1 else 0)
  }

  /** The count never exceeds the number of POSTs; it reaches it exactly
      when every POST was delivered, and is zero exactly when none was. */
  lemma {:induction false} SentCountBounds(replies: nat -> WorkatoQa.Response, n: nat)
    ensures SentCount(replies, n) <= n
    ensures SentCount(replies, n) == n <==> forall i :: 0 <= i < n ==> Delivered(replies(i))
    ensures SentCount(replies, n) == 0 <==> forall i :: 0 <= i < n ==> !Delivered(replies(i))
  {
    if n > 0 {
      SentCountBounds(replies, n - 1);
    }
  }

  /** The send loop of `main`: one POST per record, in order, with no retry
      and no early stop; only deliveries are counted. */
  method SendAll<R, P>(conversations: seq<R>, payload: R -> P, replies: nat -> WorkatoQa.Response)
    returns (sentCount: nat, posts: seq<P>)
    ensures |posts| == |conversations|
    ensures forall i :: 0 <= i < |conversations| ==> posts[i] == payload(conversations[i])
    ensures sentCount == SentCount(replies, |conversations|)
  {
    sentCount := 0;
    posts := [];
    for i := 0 to |conversations|
      invariant |posts| == i
      invariant forall j :: 0 <= j < i ==> posts[j] == payload(conversations[j])
      invariant sentCount == SentCount(replies, i)
    {
      posts := posts + [payload(conversations[i])];
      if Delivered(replies(i)) {
        sentCount := sentCount + 1;
      }
    }
  }

  /** The webhook URL counts as configured unless it is unset, empty or the
      placeholder. */
  predicate WebhookConfigured(url: Option<string>) {
    url.Some? && url.value != "" && url.value != "your-workato-webhook-url-here"
  }

  const LastRunKey: string := "last_run_timestamp"

  /** The record `save_last_run_timestamp` writes, `now` being
      `int(datetime.now().timestamp())`. */
  function LastRunRecord(now: int): (r: Json)
    ensures r.Obj? && r.fields.Keys == {LastRunKey} && r.fields[LastRunKey] == Num(now)
  {
    Obj(map[LastRunKey := Num(now)])
  }

  /** What `get_last_run_timestamp` gives: nothing when the file does not
      exist, the `last_run_timestamp` entry of a dictionary (`None` when it
      is absent), and a raise for any other decoded value (`.get` fails). */
  datatype LastRun = NoFile | Stamp(value: Json) | ReadRaises

  /** `get_last_run_timestamp()` on what `json.load` decoded from the run
      file, `None` when the file does not exist. */
  function ReadLastRun(file: Option<Json>): (r: LastRun)
    ensures file.None? <==> r.NoFile?
    ensures r.ReadRaises? <==> file.Some? && !file.value.Obj?
    ensures r.Stamp? ==> file.Some? && file.value.Obj? && r.value == Get(file.value.fields, LastRunKey)
  {
    match file
    case None => NoFile
    case Some(Obj(fields)) => Stamp(Get(fields, LastRunKey))
    case Some(_) => ReadRaises
  }

  /** The record a run saves reads back as that run's time. */
  lemma LastRunReadsBack(now: int)
    ensures ReadLastRun(Some(LastRunRecord(now))) == Stamp(Num(now))
  {
  }
}
