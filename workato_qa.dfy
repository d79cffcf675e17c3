/**
 * Delivery of QA conversations to the Workato webhook
 * (`decagon_voice/voice_conversations_qa.py`).
 *
 * The webhook is not modelled: `replies(a)` is the answer to the a-th POST
 * (0-based) for one conversation, and `sink(i, a)` the answer to the a-th
 * POST for the i-th conversation of the batch. Every `time.sleep` becomes
 * an entry, in milliseconds, of a `delays` sequence.
 */
module WorkatoQa {
  import opened Options
  import opened PsqlTable
  import Satori

  /** What one `requests.post` gave: a status code, or an exception. */
  datatype Response = Status(code: int) | Transport

  /** The three results of `send_to_workato_webhook`: `True`, `"RATE_LIMITED"`, `False`. */
  datatype SendResult = Sent | RateLimited | Failed

  const DefaultMaxRetries: nat := 3
  const NotFoundWaitMs: nat := 2000
  const ErrorWaitMs: nat := 1000
  /** `1.0 / requests_per_second` with 10 requests per second. */
  const ThrottleMs: nat := 100
  const MaxConsecutiveFailures: nat := 5

  /** The JSON body: each of the nine QA columns, `null` when the row lacks
      it. The row's other fields are not sent, and a receiver that drops the
      nulls reads back exactly the row's QA columns. */
  function Payload(conversation: Row): (p: map<string, Option<string>>)
    ensures p.Keys == set k | k in QaColumns
    ensures Present(p) == Restrict(conversation, QaColumns)
  {
    map k | k in QaColumns :: if k in conversation then Some(conversation[k]) else None
  }

  /** A row the QA parser produced reaches the webhook whole: every QA
      column is posted with the row's own field, none of them as `null`. */
  lemma PayloadOfParsedRow(output: string, r: Row)
    requires r in Parse(QaLayout, QaColumns, output)
    ensures forall k :: k in QaColumns ==> k in r && Payload(r)[k] == Some(r[k])
  {
    ColumnsDistinct();
    ParsedRowShape(QaLayout, QaColumns, output);
  }

  /** A reply after which the attempt is repeated (if attempts remain). */
  predicate Retryable(r: Response) {
    r == Status(404) || r == Transport
  }

  /** The pause before the next attempt after a retryable reply. */
  function RetryWait(r: Response): nat {
    if r == Status(404) then NotFoundWaitMs else ErrorWaitMs
  }

  /** The result a reply leads to when no retry follows it. */
  function Final(r: Response): SendResult {
    if r == Status(200) then Sent else if r == Status(429) then RateLimited else Failed
  }

  /** One conversation's delivery: its result, the POSTs made and the waits. */
  datatype Delivery = Delivery(result: SendResult, posts: nat, delays: seq<nat>)

  /** The retry loop of `send_to_workato_webhook` from attempt `a` on. */
  function DeliverFrom(replies: nat -> Response, maxRetries: nat, a: nat): Delivery
    decreases maxRetries - a
  {
    if a >= maxRetries then Delivery(Failed, 0, [])
    else
      var r := replies(a);
      if Retryable(r) && a < maxRetries - 1 then
        var rest := DeliverFrom(replies, maxRetries, a + 1);
        Delivery(rest.result, rest.posts + 1, [RetryWait(r)] + rest.delays)
      else Delivery(Final(r), 1, [])
  }

  function Deliver(replies: nat -> Response, maxRetries: nat): Delivery {
    DeliverFrom(replies, maxRetries, 0)
  }

  /** One attempt of the retry loop, unfolded. */
  lemma DeliverStep(replies: nat -> Response, maxRetries: nat, a: nat)
    requires a < maxRetries
    ensures Retryable(replies(a)) && a < maxRetries - 1 ==>
      var rest := DeliverFrom(replies, maxRetries, a + 1);
      DeliverFrom(replies, maxRetries, a) == Delivery(rest.result, rest.posts + 1, [RetryWait(replies(a))] + rest.delays)
    ensures !(Retryable(replies(a)) && a < maxRetries - 1) ==>
      DeliverFrom(replies, maxRetries, a) == Delivery(Final(replies(a)), 1, [])
  {
  }

  /** The branches of one attempt of `send_to_workato_webhook`: whether the
      loop stops after reply `r`, with which result, and otherwise how long it
      sleeps first; `last` says that no attempt remains after this one. */
  method Attempt(r: Response, last: bool) returns (stop: bool, result: SendResult, wait: nat)
    ensures stop <==> !(Retryable(r) && !last)
    ensures stop ==> result == Final(r)
    ensures !stop ==> wait == RetryWait(r)
  {
    stop, result, wait := true, Failed, 0;
    if r == Status(200) {
      result := Sent;
    } else if r == Status(429) {
      result := RateLimited;
    } else if r == Status(404) {
      if !last {
        stop, wait := false, NotFoundWaitMs;
      }
    } else if r.Status? {
      result := Failed;
    } else if !last {
      stop, wait := false, ErrorWaitMs;
    }
  }

  /** `send_to_workato_webhook(conversation, url, max_retries)` */
  method SendToWorkatoWebhook(replies: nat -> Response, maxRetries: nat)
    returns (result: SendResult, posts: nat, delays: seq<nat>)
    ensures Delivery(result, posts, delays) == Deliver(replies, maxRetries)
  {
    posts := 0;
    delays := [];
    for a := 0 to maxRetries
      invariant posts == a
      invariant Deliver(replies, maxRetries) ==
        var rest := DeliverFrom(replies, maxRetries, a);
        Delivery(rest.result, rest.posts + a, delays + rest.delays)
    {
      var stop, res, wait := Attempt(replies(a), a >= maxRetries - 1);
      DeliverStep(replies, maxRetries, a);
      posts := posts + 1;
      if stop {
        return res, posts, delays;
      }
      delays := delays + [wait];
    }
    result := Failed;
  }

  /** What a delivery does, reply by reply: the POSTs stop at the first reply
      that is not a 404 or an exception, or after `maxRetries` of them; the
      result is decided by the last reply (200 sent, 429 rate-limited, all
      else failed); a wait of 2 s follows each repeated 404 and 1 s each
      repeated exception, and none follows the last POST. */
  lemma {:induction false} DeliverCharacterized(replies: nat -> Response, maxRetries: nat, a: nat)
    requires a <= maxRetries
    ensures DeliverFrom(replies, maxRetries, a).posts <= maxRetries - a
    ensures a < maxRetries <==> DeliverFrom(replies, maxRetries, a).posts >= 1
    ensures DeliverFrom(replies, maxRetries, a).posts == 0 ==> DeliverFrom(replies, maxRetries, a).result == Failed
    ensures var d := DeliverFrom(replies, maxRetries, a);
      d.posts >= 1 ==> |d.delays| == d.posts - 1
    ensures var d := DeliverFrom(replies, maxRetries, a);
      forall j :: a <= j < a + d.posts - 1 ==>
        Retryable(replies(j)) && d.delays[j - a] == RetryWait(replies(j))
    ensures var d := DeliverFrom(replies, maxRetries, a);
      d.posts >= 1 ==> d.result == Final(replies(a + d.posts - 1))
    ensures var d := DeliverFrom(replies, maxRetries, a);
      d.posts >= 1 && a + d.posts < maxRetries ==> !Retryable(replies(a + d.posts - 1))
    decreases maxRetries - a
  {
    if a < maxRetries && Retryable(replies(a)) && a < maxRetries - 1 {
      DeliverCharacterized(replies, maxRetries, a + 1);
      var rest := DeliverFrom(replies, maxRetries, a + 1);
      var d := DeliverFrom(replies, maxRetries, a);
      forall j | a <= j < a + d.posts - 1
        ensures Retryable(replies(j)) && d.delays[j - a] == RetryWait(replies(j))
      {
        if j > a {
          assert d.delays[j - a] == rest.delays[j - (a + 1)];
        }
      }
    }
  }

  /** At most `max_retries` POSTs; a first reply of 200 or 429 ends the
      delivery after that one POST; any status other than 200, 404 and 429
      fails at once. */
  lemma DeliveryFacts(replies: nat -> Response, maxRetries: nat)
    ensures Deliver(replies, maxRetries).posts <= maxRetries
    ensures maxRetries >= 1 && replies(0) == Status(200) ==> Deliver(replies, maxRetries) == Delivery(Sent, 1, [])
    ensures maxRetries >= 1 && replies(0) == Status(429) ==> Deliver(replies, maxRetries) == Delivery(RateLimited, 1, [])
    ensures maxRetries >= 1 && replies(0).Status? && replies(0).code !in {200, 404, 429} ==>
      Deliver(replies, maxRetries) == Delivery(Failed, 1, [])
  {
    DeliverCharacterized(replies, maxRetries, 0);
  }

  /** A webhook that keeps answering 404 is posted to `max_retries` times and
      the conversation fails; between the POSTs there are 2-second waits. */
  lemma {:induction false} StoppedRecipe(replies: nat -> Response, maxRetries: nat, a: nat)
    requires forall j :: replies(j) == Status(404)
    requires a <= maxRetries
    ensures var d := DeliverFrom(replies, maxRetries, a);
      d.result == Failed && d.posts == maxRetries - a &&
      d.delays == seq(if a < maxRetries then maxRetries - a - 1 else 0, _ => NotFoundWaitMs)
    decreases maxRetries - a
  {
    if a < maxRetries - 1 {
      StoppedRecipe(replies, maxRetries, a + 1);
    }
  }

  // ---------------------------------------------------------------------
  // The send loop of `main`

  /** The replies the webhook gives to the POSTs for conversation `i`. */
  function RepliesTo(sink: (nat, nat) -> Response, i: nat): nat -> Response {
    (a: nat) => sink(i, a)
  }

  /** The delivery of conversation `i`, with the default retry cap. */
  function DeliveryOf(sink: (nat, nat) -> Response, i: nat): Delivery {
    Deliver(RepliesTo(sink, i), DefaultMaxRetries)
  }

  /** The send loop's state: its counters, the conversations attempted (a
      prefix of the batch, in order), all POSTs, all waits, and whether it
      stopped on a rate limit. */
  datatype PassState = PassState(
    sentCount: nat, failedCount: nat, consecutiveFailures: nat,
    attempted: nat, posts: nat, delays: seq<nat>, rateLimited: bool)

  const Start := PassState(0, 0, 0, 0, 0, [], false)

  /** One iteration of the loop for conversation `i`, and whether it breaks. */
  function Step(sink: (nat, nat) -> Response, i: nat, s: PassState): (PassState, bool) {
    var d := DeliveryOf(sink, i);
    var t := s.(attempted := s.attempted + 1, posts := s.posts + d.posts, delays := s.delays + d.delays);
    match d.result
    case RateLimited => (t.(rateLimited := true), true)
    case Sent => (t.(sentCount := t.sentCount + 1, consecutiveFailures := 0, delays := t.delays + [ThrottleMs]), false)
    case Failed =>
      var u := t.(failedCount := t.failedCount + 1, consecutiveFailures := t.consecutiveFailures + 1);
      if u.consecutiveFailures >= MaxConsecutiveFailures then (u, true)
      else (u.(delays := u.delays + [ThrottleMs]), false)
  }

  /** The loop over conversations `i .. n-1` from state `s`. */
  function PassFrom(sink: (nat, nat) -> Response, n: nat, i: nat, s: PassState): PassState
    decreases n - i
  {
    if i >= n then s
    else
      var (t, stop) := Step(sink, i, s);
      if stop then t else PassFrom(sink, n, i + 1, t)
  }

  /** The whole loop over a batch of `n` conversations. */
  function Pass(sink: (nat, nat) -> Response, n: nat): PassState {
    PassFrom(sink, n, 0, Start)
  }

  /** The send loop as it runs: counters that the loop body updates in place. */
  class SendLoop {
    var sentCount: nat
    var failedCount: nat
    var consecutiveFailures: nat
    var attempted: nat
    var posts: nat
    var delays: seq<nat>
    var rateLimited: bool

    function State(): PassState
      reads this
    {
      PassState(sentCount, failedCount, consecutiveFailures, attempted, posts, delays, rateLimited)
    }

    constructor ()
      ensures State() == Start
    {
      sentCount, failedCount, consecutiveFailures := 0, 0, 0;
      attempted, posts, delays, rateLimited := 0, 0, [], false;
    }

    /** One pass of the loop body for conversation `i`; `stop` is a `break`. */
    method SendOne(sink: (nat, nat) -> Response, i: nat) returns (stop: bool)
      modifies this
      ensures (State(), stop) == Step(sink, i, old(State()))
    {
      var result, n, waits := SendToWorkatoWebhook(RepliesTo(sink, i), DefaultMaxRetries);
      assert DeliveryOf(sink, i) == Delivery(result, n, waits);
      attempted := attempted + 1;
      posts := posts + n;
      delays := delays + waits;
      if result == RateLimited {
        rateLimited := true;
        return true;
      } else if result == Sent {
        sentCount := sentCount + 1;
        consecutiveFailures := 0;
      } else {
        failedCount := failedCount + 1;
        consecutiveFailures := consecutiveFailures + 1;
        if consecutiveFailures >= MaxConsecutiveFailures {
          return true;
        }
      }
      delays := delays + [ThrottleMs];
      stop := false;
    }

    /** `for idx, conversation in enumerate(conversations, start=1): ...` */
    method Run(conversations: seq<Row>, sink: (nat, nat) -> Response)
      modifies this
      requires State() == Start
      ensures State() == Pass(sink, |conversations|)
    {
      var i := 0;
      while i < |conversations|
        invariant i <= |conversations|
        invariant PassFrom(sink, |conversations|, i, State()) == Pass(sink, |conversations|)
        decreases |conversations| - i
      {
        var stop := SendOne(sink, i);
        if stop {
          return;
        }
        i := i + 1;
      }
    }
  }

  /** How many of conversations `lo .. hi-1` had delivery result `r`. */
  function CountResult(sink: (nat, nat) -> Response, lo: nat, hi: nat, r: SendResult): nat
    decreases hi - lo
  {
    if lo >= hi then 0
    else (if DeliveryOf(sink, lo).result == r then 1 else 0) + CountResult(sink, lo + 1, hi, r)
  }

  /** The run of consecutive failures ending just before `hi`. */
  function TrailingFailures(sink: (nat, nat) -> Response, hi: nat): nat
    decreases hi
  {
    if hi == 0 || DeliveryOf(sink, hi - 1).result != Failed then 0
    else 1 + TrailingFailures(sink, hi - 1)
  }

  predicate Consistent(sink: (nat, nat) -> Response, n: nat, s: PassState) {
    && s.attempted <= n
    && s.sentCount == CountResult(sink, 0, s.attempted, Sent)
    && s.failedCount == CountResult(sink, 0, s.attempted, Failed)
    && s.consecutiveFailures == TrailingFailures(sink, if s.rateLimited && s.attempted >= 1 then s.attempted - 1 else s.attempted)
    && (forall j :: 0 <= j < s.attempted && s.rateLimited ==> (j == s.attempted - 1 <==> DeliveryOf(sink, j).result == RateLimited))
    && (!s.rateLimited ==> forall j :: 0 <= j < s.attempted ==> DeliveryOf(sink, j).result != RateLimited)
    && (s.rateLimited ==> s.attempted >= 1)
  }

  lemma {:induction false} CountSplit(sink: (nat, nat) -> Response, lo: nat, hi: nat, r: SendResult)
    requires lo <= hi
    ensures CountResult(sink, lo, hi + 1, r) ==
      CountResult(sink, lo, hi, r) + (if DeliveryOf(sink, hi).result == r then 1 else 0)
    decreases hi - lo
  {
    if lo < hi {
      CountSplit(sink, lo + 1, hi, r);
    }
  }

  lemma StepConsistent(sink: (nat, nat) -> Response, n: nat, i: nat, s: PassState)
    requires Consistent(sink, n, s) && s.attempted == i && !s.rateLimited && i < n
    requires s.consecutiveFailures < MaxConsecutiveFailures
    ensures var (t, stop) := Step(sink, i, s);
      && Consistent(sink, n, t) && t.attempted == i + 1
      && (t.rateLimited ==> stop && t.consecutiveFailures < MaxConsecutiveFailures)
      && (stop <==> t.rateLimited || t.consecutiveFailures >= MaxConsecutiveFailures)
      && t.consecutiveFailures <= MaxConsecutiveFailures
  {
    var (t, stop) := Step(sink, i, s);
    var r := DeliveryOf(sink, i).result;
    CountSplit(sink, 0, i, Sent);
    CountSplit(sink, 0, i, Failed);
    assert t.sentCount == CountResult(sink, 0, i + 1, Sent);
    assert t.failedCount == CountResult(sink, 0, i + 1, Failed);
    assert t.consecutiveFailures == TrailingFailures(sink, if t.rateLimited then i else i + 1);
  }

  lemma {:induction false} PassFromConsistent(sink: (nat, nat) -> Response, n: nat, i: nat, s: PassState)
    requires Consistent(sink, n, s) && s.attempted == i && !s.rateLimited
    requires s.consecutiveFailures < MaxConsecutiveFailures
    ensures var f := PassFrom(sink, n, i, s);
      && Consistent(sink, n, f)
      && f.attempted >= i
      && (f.attempted == n || f.rateLimited || f.consecutiveFailures == MaxConsecutiveFailures)
    decreases n - i
  {
    if i < n {
      StepConsistent(sink, n, i, s);
      var (t, stop) := Step(sink, i, s);
      if !stop {
        PassFromConsistent(sink, n, i + 1, t);
      }
    }
  }

  /** The loop's counters mean what their names say: the conversations
      attempted are a prefix of the batch; `sent_count` and `failed_count`
      count the sent and failed deliveries among them, so a rate-limited one
      is counted in neither and their sum never exceeds the attempts; the
      loop stops early only on a rate limit (always on the last conversation
      attempted) or after five consecutive failures. */
  lemma PassCharacterized(sink: (nat, nat) -> Response, n: nat)
    ensures var f := Pass(sink, n);
      && f.attempted <= n
      && f.sentCount == CountResult(sink, 0, f.attempted, Sent)
      && f.failedCount == CountResult(sink, 0, f.attempted, Failed)
      && f.consecutiveFailures == TrailingFailures(sink, if f.rateLimited && f.attempted >= 1 then f.attempted - 1 else f.attempted)
      && (f.rateLimited <==> f.attempted >= 1 && DeliveryOf(sink, f.attempted - 1).result == RateLimited)
      && (forall j :: 0 <= j < f.attempted - 1 ==> DeliveryOf(sink, j).result != RateLimited)
      && (f.attempted == n || f.rateLimited || f.consecutiveFailures == MaxConsecutiveFailures)
      && f.sentCount + f.failedCount <= f.attempted
  {
    PassFromConsistent(sink, n, 0, Start);
    var f := Pass(sink, n);
    CountsBounded(sink, 0, f.attempted);
  }

  lemma {:induction false} CountsBounded(sink: (nat, nat) -> Response, lo: nat, hi: nat)
    requires lo <= hi
    ensures CountResult(sink, lo, hi, Sent) + CountResult(sink, lo, hi, Failed) <= hi - lo
    decreases hi - lo
  {
    if lo < hi {
      CountsBounded(sink, lo + 1, hi);
    }
  }

  /** With a webhook that fails every conversation and at least five
      conversations, exactly five are attempted and all five fail. */
  lemma AlwaysFailing(sink: (nat, nat) -> Response, n: nat)
    requires forall i :: DeliveryOf(sink, i).result == Failed
    requires n >= MaxConsecutiveFailures
    ensures Pass(sink, n).attempted == 5 && Pass(sink, n).failedCount == 5 && Pass(sink, n).sentCount == 0
  {
    var s0 := Start;
    var s1 := Step(sink, 0, s0).0;
    assert PassFrom(sink, n, 0, s0) == PassFrom(sink, n, 1, s1);
    var s2 := Step(sink, 1, s1).0;
    assert PassFrom(sink, n, 1, s1) == PassFrom(sink, n, 2, s2);
    var s3 := Step(sink, 2, s2).0;
    assert PassFrom(sink, n, 2, s2) == PassFrom(sink, n, 3, s3);
    var s4 := Step(sink, 3, s3).0;
    assert PassFrom(sink, n, 3, s3) == PassFrom(sink, n, 4, s4);
    assert s4.consecutiveFailures == 4 && s4.attempted == 4 && s4.failedCount == 4 && s4.sentCount == 0;
  }

  /** A success resets the consecutive-failure count. */
  lemma SuccessResets(sink: (nat, nat) -> Response, i: nat, s: PassState)
    requires DeliveryOf(sink, i).result == Sent
    ensures Step(sink, i, s).0.consecutiveFailures == 0 && !Step(sink, i, s).1
    ensures Step(sink, i, s).0.failedCount == s.failedCount
  {
  }

  // ---------------------------------------------------------------------
  // `main`

  /** What `main` does around the send loop. */
  datatype QaRun = QaRun(fetched: seq<Row>, sending: Option<PassState>, savedTimestamp: bool)

  /** `main()`: fetch once through the CLI (a missing or empty query file
      counts as no rows); with no rows, stop before anything else;
      otherwise send only when `url` is a real webhook URL, and then save
      the run timestamp. */
  function QaMain(queryFound: bool, outcome: Satori.RunOutcome, url: string,
                  sink: (nat, nat) -> Response): (r: QaRun)
    ensures r.savedTimestamp <==> r.fetched != []
    ensures r.sending.Some? <==> r.fetched != [] && WebhookConfigured(url)
    ensures r.sending.Some? ==> r.sending.value == Pass(sink, |r.fetched|)
    ensures !queryFound ==> r.fetched == []
    ensures queryFound ==>
      (r.fetched == match Satori.QueryOnce(QaLayout, QaColumns, outcome) case None => [] case Some(rows) => rows)
  {
    var rows := if !queryFound then [] else
      match Satori.QueryOnce(QaLayout, QaColumns, outcome) case None => [] case Some(rows) => rows;
    if rows == [] then QaRun([], None, false)
    else QaRun(rows, if WebhookConfigured(url) then Some(Pass(sink, |rows|)) else None, true)
  }

  /** The webhook URL counts as configured unless it is empty or the placeholder. */
  predicate WebhookConfigured(url: string) {
    url != "" && url != "your-qa-webhook-url-here"
  }
}
