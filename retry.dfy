/** The bounded retry controller around the call to the inference endpoint
    (`call_endpoint_with_retry`). The network call and the clock are given
    as an oracle: the outcome of attempt `i` is `outcomes[i]`, and each
    `time.sleep(d)` is recorded as `d` in the returned pause log. */
module Retry {
  import opened Http

  /** What one call of the endpoint did: returned a body after `elapsed`
      seconds, raised a ClientError carrying an error code, or raised any
      other exception carrying its text. */
  datatype Outcome =
    | Success(elapsed: real, body: string)
    | ClientErr(code: string)
    | OtherErr(msg: string)

  /** The default of `max_retries`. */
  const DefaultMaxRetries: int := 3
  /** Seconds above which a success counts as slow. */
  const SlowThreshold: real := 5.0
  /** The one ClientError code that is retried. */
  const RetryableCode: string := "ModelError"
  /** Pause, in seconds, after a slow success. */
  const SlowPause: nat := 1

  const ExhaustedDetail: string := "Endpoint unavailable after retries"
  const Exhausted: Result<string> := Err(HttpError(503, ExhaustedDetail))

  function EndpointError(code: string): Result<string> {
    Err(HttpError(503, "Endpoint error: " + code))
  }

  function UnexpectedError(msg: string): Result<string> {
    Err(HttpError(500, "Unexpected error: " + msg))
  }

  /** `2 ** n`, the exponential backoff after a failed attempt `n`. */
  function Pow2(n: nat): nat {
    if n == 0 then 1 else 2 * Pow2(n - 1)
  }

  /** The backoff after a later attempt is strictly longer. */
  lemma {:induction false} BackoffGrows(m: nat, n: nat)
    requires m < n
    ensures Pow2(m) < Pow2(n)
    decreases n
  {
    if m + 1 < n {
      BackoffGrows(m, n - 1);
    }
    PowPositive(m);
  }

  lemma {:induction false} PowPositive(n: nat)
    ensures Pow2(n) >= 1
  {
    if n > 0 {
      PowPositive(n - 1);
    }
  }

  /** An outcome after which a non-final attempt is followed by another:
      a slow success, a `ModelError`, or an exception that is not a
      ClientError. */
  predicate WorthRetrying(outcome: Outcome) {
    match outcome
    case Success(elapsed, _) => elapsed > SlowThreshold
    case ClientErr(code) => code == RetryableCode
    case OtherErr(_) => true
  }

  /** The controller's reaction to one attempt: stop with a result, or
      pause for some seconds and run the next attempt. */
  datatype Decision = Return(result: Result<string>) | Pause(seconds: nat)

  function Decide(outcome: Outcome, attempt: nat, maxRetries: int): (d: Decision)
    // Only a non-final attempt may pause, and only a fast success or a
    // non-retryable error ends the loop before the final attempt.
    ensures attempt < maxRetries ==>
      (d.Pause? <==> attempt < maxRetries - 1 && WorthRetrying(outcome))
    // A pause lasts one second after a slow success, `2 ** attempt` after an error.
    ensures d.Pause? ==> d.seconds == if outcome.Success? then SlowPause else Pow2(attempt)
    // What a stopping attempt yields, per kind of outcome.
    ensures d.Return? ==>
      d.result == match outcome
        case Success(_, body) => Ok(body)
        case ClientErr(code) => EndpointError(code)
        case OtherErr(msg) => UnexpectedError(msg)
  {
    match outcome
    case Success(elapsed, body) =>
      if elapsed > SlowThreshold && attempt < maxRetries - 1 then Pause(SlowPause)
      else Return(Ok(body))
    case ClientErr(code) =>
      if code == RetryableCode && attempt < maxRetries - 1 then Pause(Pow2(attempt))
      else Return(EndpointError(code))
    case OtherErr(msg) =>
      if attempt == maxRetries - 1 then Return(UnexpectedError(msg))
      else Pause(Pow2(attempt))
  }

  /** Everything observable about one run of the controller: what it
      returns or raises, how often it called the endpoint, and the pauses
      it slept, in order. */
  datatype Trace = Trace(result: Result<string>, calls: nat, pauses: seq<nat>)

  /** The run of the controller from attempt `attempt` on. */
  function Run(outcomes: seq<Outcome>, maxRetries: int, attempt: nat): (t: Trace)
    requires maxRetries <= |outcomes|
    ensures attempt >= maxRetries ==> t.calls == 0 && t.pauses == []
    ensures attempt < maxRetries ==> 1 <= t.calls <= maxRetries - attempt && t.calls == |t.pauses| + 1
    ensures t.result == Exhausted <==> attempt >= maxRetries
    decreases maxRetries - attempt
  {
    if attempt >= maxRetries then Trace(Exhausted, 0, [])
    else match Decide(outcomes[attempt], attempt, maxRetries)
      case Return(result) =>
        EndpointErrorIsNotExhausted(outcomes[attempt]);
        Trace(result, 1, [])
      case Pause(seconds) =>
        var rest := Run(outcomes, maxRetries, attempt + 1);
        Trace(rest.result, rest.calls + 1, [seconds] + rest.pauses)
  }

  /** No attempt's own verdict is the exhaustion error. */
  lemma EndpointErrorIsNotExhausted(outcome: Outcome)
    ensures forall attempt: nat, maxRetries: int ::
      Decide(outcome, attempt, maxRetries) != Return(Exhausted)
  {
    if outcome.ClientErr? {
      var detail := "Endpoint error: " + outcome.code;
      assert detail[9] == 'e' != ExhaustedDetail[9];
    }
  }

  /** Attempt `i` is executed: it is within the bound and every earlier
      attempt ended in a pause. */
  ghost predicate Runs(outcomes: seq<Outcome>, maxRetries: int, i: nat)
    requires maxRetries <= |outcomes|
  {
    i < maxRetries && forall j :: 0 <= j < i ==> Decide(outcomes[j], j, maxRetries).Pause?
  }

  /** `call_endpoint_with_retry(features, max_retries)`, with the endpoint's
      answers taken from `outcomes`. */
  method CallEndpointWithRetry(outcomes: seq<Outcome>, maxRetries: int)
    returns (r: Result<string>, calls: nat, pauses: seq<nat>)
    requires maxRetries <= |outcomes|
    ensures Trace(r, calls, pauses) == Run(outcomes, maxRetries, 0)
  {
    calls, pauses := 0, [];
    var attempt: nat := 0;
    while attempt < maxRetries
      invariant attempt == 0 || attempt <= maxRetries
      invariant calls == attempt
      invariant Run(outcomes, maxRetries, 0) ==
        var rest := Run(outcomes, maxRetries, attempt);
        Trace(rest.result, attempt + rest.calls, pauses + rest.pauses)
      decreases maxRetries - attempt
    {
      ghost var rest := Run(outcomes, maxRetries, attempt + 1);
      calls := calls + 1;
      match outcomes[attempt]
      case Success(elapsed, body) =>
        if elapsed > SlowThreshold && attempt < maxRetries - 1 {
          assert pauses + ([SlowPause] + rest.pauses) == (pauses + [SlowPause]) + rest.pauses;
          pauses := pauses + [SlowPause];
          attempt := attempt + 1;
          continue;
        }
        r := Ok(body);
        return;
      case ClientErr(code) =>
        if code == RetryableCode && attempt < maxRetries - 1 {
          assert pauses + ([Pow2(attempt)] + rest.pauses) == (pauses + [Pow2(attempt)]) + rest.pauses;
          pauses := pauses + [Pow2(attempt)];
          attempt := attempt + 1;
          continue;
        }
        r := EndpointError(code);
        return;
      case OtherErr(msg) =>
        if attempt == maxRetries - 1 {
          r := UnexpectedError(msg);
          return;
        }
        assert pauses + ([Pow2(attempt)] + rest.pauses) == (pauses + [Pow2(attempt)]) + rest.pauses;
        pauses := pauses + [Pow2(attempt)];
        attempt := attempt + 1;
    }
    r := Exhausted;
  }

  /** Once attempt `i` is executed, the whole run is the `i` pauses before
      it followed by the run from attempt `i` on. */
  lemma {:induction false} RunReaches(outcomes: seq<Outcome>, maxRetries: int, i: nat)
    requires maxRetries <= |outcomes|
    requires Runs(outcomes, maxRetries, i)
    ensures var t, s := Run(outcomes, maxRetries, 0), Run(outcomes, maxRetries, i);
      t.result == s.result && t.calls == i + s.calls &&
      |t.pauses| == i + |s.pauses| && t.pauses[i..] == s.pauses
  {
    if i > 0 {
      RunReaches(outcomes, maxRetries, i - 1);
      assert Decide(outcomes[i - 1], i - 1, maxRetries).Pause?;
      var t := Run(outcomes, maxRetries, 0);
      assert t.pauses[i..] == t.pauses[i - 1..][1..];
    }
  }

  /** Exactly one attempt ends the loop: the last call made. Every call
      before it ended in the pause logged for it, and the last call's own
      verdict is the result. */
  lemma LastCallDecides(outcomes: seq<Outcome>, maxRetries: int)
    requires maxRetries <= |outcomes|
    requires maxRetries >= 1
    ensures var t := Run(outcomes, maxRetries, 0);
      1 <= t.calls <= maxRetries && |t.pauses| == t.calls - 1 &&
      (forall j :: 0 <= j < t.calls - 1 ==> Decide(outcomes[j], j, maxRetries) == Pause(t.pauses[j])) &&
      Decide(outcomes[t.calls - 1], t.calls - 1, maxRetries) == Return(t.result)
  {
    LastCallFrom(outcomes, maxRetries, 0);
  }

  lemma {:induction false} LastCallFrom(outcomes: seq<Outcome>, maxRetries: int, a: nat)
    requires maxRetries <= |outcomes|
    requires a < maxRetries
    ensures var t := Run(outcomes, maxRetries, a);
      (forall j :: 0 <= j < t.calls - 1 ==> Decide(outcomes[a + j], a + j, maxRetries) == Pause(t.pauses[j])) &&
      Decide(outcomes[a + t.calls - 1], a + t.calls - 1, maxRetries) == Return(t.result)
    decreases maxRetries - a
  {
    var t := Run(outcomes, maxRetries, a);
    match Decide(outcomes[a], a, maxRetries)
    case Return(_) =>
    case Pause(p) =>
      if a + 1 >= maxRetries {
        // The final attempt never pauses.
        assert false;
      }
      LastCallFrom(outcomes, maxRetries, a + 1);
      var s := Run(outcomes, maxRetries, a + 1);
      forall j | 0 <= j < t.calls - 1
        ensures Decide(outcomes[a + j], a + j, maxRetries) == Pause(t.pauses[j])
      {
        if j > 0 {
          assert t.pauses[j] == s.pauses[j - 1];
          assert a + j == (a + 1) + (j - 1);
        }
      }
      assert a + t.calls - 1 == (a + 1) + s.calls - 1;
  }

  /** The final attempt always returns or raises. */
  lemma FinalAttemptStops(outcome: Outcome, maxRetries: int)
    requires maxRetries >= 1
    ensures Decide(outcome, maxRetries - 1, maxRetries).Return?
  {
  }

  /** The endpoint is called at most `max_retries` times, and not at all
      when `max_retries <= 0`; the "unavailable after retries" error of
      the last line is raised exactly when no attempt is made. */
  lemma CallsBounded(outcomes: seq<Outcome>, maxRetries: int)
    requires maxRetries <= |outcomes|
    ensures var t := Run(outcomes, maxRetries, 0);
      (maxRetries <= 0 ==> t.calls == 0 && t.pauses == [] && t.result == Exhausted) &&
      (maxRetries >= 1 ==> 1 <= t.calls <= maxRetries && t.result != Exhausted)
  {
  }

  /** A success on attempt `i` under the slowness threshold, or on the
      final attempt however slow, is returned at once. */
  lemma SuccessReturned(outcomes: seq<Outcome>, maxRetries: int, i: nat)
    requires maxRetries <= |outcomes|
    requires Runs(outcomes, maxRetries, i)
    requires outcomes[i].Success?
    requires outcomes[i].elapsed <= SlowThreshold || i == maxRetries - 1
    ensures var t := Run(outcomes, maxRetries, 0);
      t.result == Ok(outcomes[i].body) && t.calls == i + 1 && |t.pauses| == i
  {
    RunReaches(outcomes, maxRetries, i);
  }

  /** A slow success on a non-final attempt `i` is discarded: a pause of
      one second is logged and attempt `i + 1` runs. */
  lemma SlowSuccessDiscarded(outcomes: seq<Outcome>, maxRetries: int, i: nat)
    requires maxRetries <= |outcomes|
    requires Runs(outcomes, maxRetries, i)
    requires outcomes[i].Success? && outcomes[i].elapsed > SlowThreshold
    requires i < maxRetries - 1
    ensures var t := Run(outcomes, maxRetries, 0);
      |t.pauses| > i && t.pauses[i] == SlowPause && Runs(outcomes, maxRetries, i + 1)
  {
    RunReaches(outcomes, maxRetries, i);
    AfterPause(outcomes, maxRetries, i);
  }

  /** A `ModelError` on a non-final attempt `i` is retried after `2 ** i`
      seconds. */
  lemma ModelErrorRetried(outcomes: seq<Outcome>, maxRetries: int, i: nat)
    requires maxRetries <= |outcomes|
    requires Runs(outcomes, maxRetries, i)
    requires outcomes[i] == ClientErr(RetryableCode)
    requires i < maxRetries - 1
    ensures var t := Run(outcomes, maxRetries, 0);
      |t.pauses| > i && t.pauses[i] == Pow2(i) && Runs(outcomes, maxRetries, i + 1)
  {
    RunReaches(outcomes, maxRetries, i);
    AfterPause(outcomes, maxRetries, i);
  }

  /** Any other ClientError, or a `ModelError` on the final attempt, stops
      the loop with 503 and its code: no further call is made. */
  lemma ClientErrorFatal(outcomes: seq<Outcome>, maxRetries: int, i: nat)
    requires maxRetries <= |outcomes|
    requires Runs(outcomes, maxRetries, i)
    requires outcomes[i].ClientErr?
    requires outcomes[i].code != RetryableCode || i == maxRetries - 1
    ensures var t := Run(outcomes, maxRetries, 0);
      t.result == Err(HttpError(503, "Endpoint error: " + outcomes[i].code)) &&
      t.calls == i + 1 && |t.pauses| == i
  {
    RunReaches(outcomes, maxRetries, i);
  }

  /** Any other exception on a non-final attempt `i` is retried after
      `2 ** i` seconds. */
  lemma OtherErrorRetried(outcomes: seq<Outcome>, maxRetries: int, i: nat)
    requires maxRetries <= |outcomes|
    requires Runs(outcomes, maxRetries, i)
    requires outcomes[i].OtherErr?
    requires i < maxRetries - 1
    ensures var t := Run(outcomes, maxRetries, 0);
      |t.pauses| > i && t.pauses[i] == Pow2(i) && Runs(outcomes, maxRetries, i + 1)
  {
    RunReaches(outcomes, maxRetries, i);
    AfterPause(outcomes, maxRetries, i);
  }

  /** Any other exception on the final attempt stops with 500 and its text. */
  lemma OtherErrorFinal(outcomes: seq<Outcome>, maxRetries: int)
    requires 1 <= maxRetries <= |outcomes|
    requires Runs(outcomes, maxRetries, maxRetries - 1)
    requires outcomes[maxRetries - 1].OtherErr?
    ensures var t := Run(outcomes, maxRetries, 0);
      t.result == Err(HttpError(500, "Unexpected error: " + outcomes[maxRetries - 1].msg)) &&
      t.calls == maxRetries && |t.pauses| == maxRetries - 1
  {
    RunReaches(outcomes, maxRetries, maxRetries - 1);
  }

  /** A pause on attempt `i` is logged at position `i` and attempt `i + 1`
      runs. */
  lemma AfterPause(outcomes: seq<Outcome>, maxRetries: int, i: nat)
    requires maxRetries <= |outcomes|
    requires Runs(outcomes, maxRetries, i)
    requires Decide(outcomes[i], i, maxRetries).Pause?
    requires i < maxRetries - 1
    ensures var t := Run(outcomes, maxRetries, 0);
      |t.pauses| > i && t.pauses[i] == Decide(outcomes[i], i, maxRetries).seconds &&
      Runs(outcomes, maxRetries, i + 1)
  {
    RunReaches(outcomes, maxRetries, i);
    var t := Run(outcomes, maxRetries, 0);
    assert t.pauses[i] == t.pauses[i..][0];
  }

  /** In the pause log, the pause after an error on a later attempt is
      strictly longer than the pause after an error on an earlier one. */
  lemma ErrorBackoffsGrow(outcomes: seq<Outcome>, maxRetries: int, j: nat, k: nat)
    requires maxRetries <= |outcomes|
    requires maxRetries >= 1
    requires j < k < Run(outcomes, maxRetries, 0).calls - 1
    requires !outcomes[j].Success? && !outcomes[k].Success?
    ensures var t := Run(outcomes, maxRetries, 0);
      t.pauses[j] == Pow2(j) && t.pauses[k] == Pow2(k) && t.pauses[j] < t.pauses[k]
  {
    LastCallDecides(outcomes, maxRetries);
    BackoffGrows(j, k);
  }

  /** Two cold-start `ModelError`s then a success: the third response is
      returned after pauses of 1 and 2 seconds, however slow it was,
      because the third attempt is the final one. */
  lemma ColdStartRecovers(elapsed: real, body: string)
    ensures var o := [ClientErr(RetryableCode), ClientErr(RetryableCode), Success(elapsed, body)];
      Run(o, DefaultMaxRetries, 0) == Trace(Ok(body), 3, [1, 2])
  {
  }

  /** A non-retryable error on the first attempt stops after one call. */
  lemma FatalFirstAttempt(code: string, rest: seq<Outcome>)
    requires code != RetryableCode && |rest| >= 2
    ensures Run([ClientErr(code)] + rest, DefaultMaxRetries, 0) ==
      Trace(Err(HttpError(503, "Endpoint error: " + code)), 1, [])
  {
  }
}
