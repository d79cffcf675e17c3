/**
 * Running the warehouse query through the Satori CLI (`run_satori_query`).
 *
 * The subprocess is not modelled: `runs(k)` is what the k-th invocation
 * (0-based) produced. `voice_conversations_qa.py` tries once and accepts any
 * zero exit status; the QA sheet sync and its test flow try up to four times,
 * accept only a zero exit status with non-blank output, and wait 2, 4 and 8
 * seconds between attempts. Waits are recorded in milliseconds.
 */
module Satori {
  import opened PyText
  import opened Options
  import opened PsqlTable

  /** What one `subprocess.run` produced. */
  datatype RunOutcome =
    | Completed(returncode: int, stdout: string)
    | TimedOut      // subprocess.TimeoutExpired
    | Raised        // any other exception

  /** The retry budget: `max_retries = 3`, so four attempts in all. */
  const MaxRetries: nat := 3
  const BackoffMs: nat := 2000

  function Pow2(k: nat): (r: nat)
    ensures r >= 1
  {
    if k == 0 then 1 else 2 * Pow2(k - 1)
  }

  /** The attempt is accepted: exit status 0 and some non-whitespace output
      (`result.stdout and result.stdout.strip()`, by `StdoutAccepted`). */
  predicate Accepted(o: RunOutcome) {
    o.Completed? && o.returncode == 0 && !AllSpace(o.stdout)
  }

  lemma StdoutAccepted(o: RunOutcome)
    ensures Accepted(o) <==> o.Completed? && o.returncode == 0 && o.stdout != "" && Strip(o.stdout) != ""
  {
    if o.Completed? {
      StripEmptyIffAllSpace(o.stdout);
    }
  }

  /** The output of the accepted attempt (if any), the attempts made and
      the waits between them. */
  datatype QueryRun = QueryRun(output: Option<string>, attempts: nat, delays: seq<nat>)

  /** The retry loop from attempt `k` on. */
  function RetryFrom(runs: nat -> RunOutcome, k: nat): QueryRun
    decreases MaxRetries + 1 - k
  {
    if k > MaxRetries then QueryRun(None, 0, [])
    else if Accepted(runs(k)) then QueryRun(Some(runs(k).stdout), 1, [])
    else
      var rest := RetryFrom(runs, k + 1);
      var wait := if k < MaxRetries then [BackoffMs * Pow2(k)] else [];
      QueryRun(rest.output, rest.attempts + 1, wait + rest.delays)
  }

  /** The rows `run_satori_query` returns for a retry run. */
  function RowsOfRun(layout: Layout, keys: seq<string>, q: QueryRun): Option<seq<Row>> {
    if q.output.Some? then Some(Parse(layout, keys, q.output.value)) else None
  }

  /** The rows of the retrying query (`None` when every attempt failed). */
  function QueryRows(layout: Layout, keys: seq<string>, runs: nat -> RunOutcome): Option<seq<Row>> {
    RowsOfRun(layout, keys, RetryFrom(runs, 0))
  }

  /** One attempt, unfolded: it is accepted, or the run goes on with the next one. */
  lemma RetryStep(runs: nat -> RunOutcome, k: nat)
    requires k <= MaxRetries
    ensures Accepted(runs(k)) ==> RetryFrom(runs, k) == QueryRun(Some(runs(k).stdout), 1, [])
    ensures !Accepted(runs(k)) ==> var rest := RetryFrom(runs, k + 1);
      RetryFrom(runs, k) ==
        QueryRun(rest.output, rest.attempts + 1, (if k < MaxRetries then [BackoffMs * Pow2(k)] else []) + rest.delays)
  {
  }

  /** `run_satori_query` with retries, as the QA sheet sync and the test flow run it. */
  method RunSatoriQuery(layout: Layout, keys: seq<string>, runs: nat -> RunOutcome)
    returns (rows: Option<seq<Row>>, attempts: nat, delays: seq<nat>)
    ensures var q := RetryFrom(runs, 0);
      rows == RowsOfRun(layout, keys, q) && attempts == q.attempts && delays == q.delays
  {
    attempts := 0;
    delays := [];
    var k: nat := 0;
    ghost var whole := RetryFrom(runs, 0);
    assert whole.delays == delays + whole.delays;
    while k <= MaxRetries
      invariant k <= MaxRetries + 1 && attempts == k
      invariant whole.output == RetryFrom(runs, k).output
      invariant whole.attempts == RetryFrom(runs, k).attempts + k
      invariant whole.delays == delays + RetryFrom(runs, k).delays
    {
      var outcome := runs(k);
      RetryStep(runs, k);
      attempts := attempts + 1;
      if Accepted(outcome) {
        var parsed := ParsePsqlResults(layout, keys, outcome.stdout);
        return Some(parsed), attempts, delays;
      }
      ghost var rest := RetryFrom(runs, k + 1);
      var wait := if k < MaxRetries then [BackoffMs * Pow2(k)] else [];
      assert delays + (wait + rest.delays) == (delays + wait) + rest.delays;
      delays := delays + wait;
      k := k + 1;
    }
    rows := None;
  }

  /** The attempts stop at the first accepted one and never exceed four; the
      query succeeds exactly when one of the four is accepted, with the rows
      parsed from that attempt's output; after failed attempt k the wait is
      2 * 2^k seconds, and there is no wait after the last attempt. */
  lemma {:induction false} RetryCharacterized(runs: nat -> RunOutcome, k: nat)
    requires k <= MaxRetries + 1
    ensures var q := RetryFrom(runs, k);
      && q.attempts <= MaxRetries + 1 - k
      && (forall j :: k <= j < k + q.attempts - 1 ==> !Accepted(runs(j)))
      && (q.output.Some? <==> q.attempts >= 1 && Accepted(runs(k + q.attempts - 1)))
      && (q.output.Some? ==> q.output.value == runs(k + q.attempts - 1).stdout)
      && (q.output.None? ==> q.attempts == MaxRetries + 1 - k && forall j :: k <= j <= MaxRetries ==> !Accepted(runs(j)))
      && |q.delays| == (if q.attempts == 0 then 0 else q.attempts - 1)
      && (forall j :: 0 <= j < |q.delays| ==> q.delays[j] == BackoffMs * Pow2(k + j))
    decreases MaxRetries + 1 - k
  {
    if k <= MaxRetries && !Accepted(runs(k)) {
      RetryCharacterized(runs, k + 1);
    }
  }

  /** The whole schedule when the warehouse never answers: four attempts,
      waits of 2, 4 and 8 seconds, no rows. */
  lemma AllFailing(runs: nat -> RunOutcome)
    requires forall k :: !Accepted(runs(k))
    ensures RetryFrom(runs, 0) == QueryRun(None, 4, [2000, 4000, 8000])
  {
  }

  /** The single-attempt query of `voice_conversations_qa.py`: a zero exit
      status is enough, even with empty output; otherwise there are no rows. */
  function QueryOnce(layout: Layout, keys: seq<string>, outcome: RunOutcome): (r: Option<seq<Row>>)
    ensures r.Some? <==> outcome.Completed? && outcome.returncode == 0
  {
    if outcome.Completed? && outcome.returncode == 0 then Some(Parse(layout, keys, outcome.stdout)) else None
  }
}
