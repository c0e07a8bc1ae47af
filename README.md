# Prediction gateway: retry controller, request guard, readiness

This project models the logic of a small HTTP gateway in front of a SageMaker
inference endpoint (`app.py`).

- **Retry controller** (`call_endpoint_with_retry`): calls the endpoint up to
  `max_retries` times (3 by default). A success is returned at once unless it
  took more than 5 seconds and attempts remain. In that case the result is
  dropped, the controller sleeps 1 second and tries again.
  - A `ModelError` client error on a non-final attempt `i` is retried after `2 ** i` seconds.
  - Any other client error, or a `ModelError` on the final attempt, fails with 503 `Endpoint error: <code>`.
  - Any other exception is retried after `2 ** i` seconds, or fails with 500 `Unexpected error: <text>` on the final attempt.
  - If the loop runs to its end, it fails with 503 `Endpoint unavailable after retries`.
- **Prediction** (`predict`): refuses any request without exactly 17 features
  with 400 `Expected 17 features, got <n>`. Otherwise it calls the controller,
  reads the reply as a number and labels it `high` (above 0.7), `medium`
  (above 0.3) or `low`.
- **Readiness** (`ready`): ready with the endpoint name when the runtime
  client exists and the name is non-empty. Otherwise it returns 503.

Modules, one per component: `Http` (http.dfy) holds the reply types and the
decimal rendering of counts. `Retry` (retry.dfy) holds the controller. `Predict`
(predict.dfy) holds the handler. `Health` (health.dfy) holds the readiness check.

How the environment is abstracted:
- The network call and the clock are an oracle. `outcomes[i]` is what attempt
  `i` did: `Success(elapsed, body)`, `ClientErr(code)` or `OtherErr(msg)`. The
  controller requires one outcome per attempt it may make
  (`maxRetries <= |outcomes|`).
- `time.sleep(d)` appends `d` to the returned pause log.
- The method `Retry.CallEndpointWithRetry` mirrors the loop of app.py, including
  its `continue`s and early returns. It is proved equal to the reference
  function `Retry.Run`, which returns a `Trace`: the result, the number of
  endpoint calls and the pauses. The lemmas state the controller's behaviour
  about `Run`.

Two behaviours of `call_endpoint_with_retry` and `ready` are worth noting:
- Line 76 of app.py is reached only when `max_retries <= 0`, not when every
  attempt has failed. On the final attempt a `ModelError` gives
  `Endpoint error: ModelError`, any other exception gives 500, and a slow
  success is accepted. When line 76 is reached, no call has been made
  (`Retry.CallsBounded`).
- The readiness failure always carries an `error` field. The `HTTPException`
  raised at app.py:35 is caught by the `except Exception` at app.py:36 and
  wrapped again with its own text (`Health.ReadyCheck`).

## Model

| member | source | states |
|---|---|---|
| `Retry.CallEndpointWithRetry` | app.py:39-76 | the loop's result, call count and pause log equal the reference run `Run(outcomes, maxRetries, 0)` |
| `Retry.Decide` | app.py:53-74 | the verdict of one attempt: it pauses exactly when it is not the final attempt and the outcome is a slow success, a `ModelError` or a non-ClientError exception; a pause is 1 s after a slow success and `2 ** attempt` after an error; a stop yields the body, `Endpoint error: <code>` (503) or `Unexpected error: <text>` (500) by kind of outcome |
| `Retry.BackoffGrows` | app.py:62-74 | the backoff `2 ** attempt` grows strictly with the attempt number |
| `Retry.ErrorBackoffsGrow` | app.py:60-74 | in the pause log, a pause after an error on attempt `j` is `2 ** j`, and one after an error on a later attempt is strictly longer |
| `Retry.Run` | app.py:43-76 | with attempts left, the run makes between 1 and the remaining number of calls, with one pause fewer than calls; with none left, no call and no pause; the result is the exhaustion error exactly when no attempt is left |
| `Retry.RunReaches` | app.py:43-76 | once attempt `i` runs, the whole run is the `i` earlier calls and pauses followed by the run from `i` on |
| `Retry.LastCallDecides` | app.py:43-76 | exactly one attempt ends the loop, the last call: every earlier call paused by the logged amount, and the last call's verdict is the result; calls never exceed `max_retries` |
| `Retry.FinalAttemptStops` | app.py:53-74 | the final attempt never pauses: each of its outcomes returns or raises |
| `Retry.CallsBounded` | app.py:43-76 | `max_retries <= 0` gives zero calls, no pause and the exhaustion 503; `max_retries >= 1` gives between 1 and `max_retries` calls and never the exhaustion 503 |
| `Retry.EndpointErrorIsNotExhausted` | app.py:64-76 | no single attempt yields the "unavailable after retries" error |
| `Retry.SuccessReturned` | app.py:53-57 | a success on attempt `i` that took at most 5.0 s, or any success on the final attempt, is returned after exactly `i + 1` calls and `i` pauses |
| `Retry.SlowSuccessDiscarded` | app.py:53-55 | a success slower than 5.0 s on a non-final attempt `i` is dropped: pause `i` is 1 s and attempt `i + 1` runs |
| `Retry.ModelErrorRetried` | app.py:59-63 | a `ModelError` on a non-final attempt `i` logs a pause of `2 ** i` and attempt `i + 1` runs |
| `Retry.ClientErrorFatal` | app.py:59-67 | any other client error code, or `ModelError` on the final attempt, ends with 503 `Endpoint error: <code>` after `i + 1` calls, with no further call |
| `Retry.OtherErrorRetried` | app.py:68-74 | any other exception on a non-final attempt `i` logs a pause of `2 ** i` and attempt `i + 1` runs |
| `Retry.OtherErrorFinal` | app.py:68-73 | any other exception on the final attempt ends with 500 `Unexpected error: <text>` after `max_retries` calls |
| `Retry.ColdStartRecovers` | app.py:53-63 | with the default of 3 attempts, two `ModelError`s followed by a success, however slow, return the third body after 3 calls and pauses `[1, 2]` |
| `Retry.FatalFirstAttempt` | app.py:64-67 | a non-retryable error on the first attempt ends with 503 after one call and no pause |
| `Predict.Predict` | app.py:78-101 | a wrong feature count gives 400 naming the count, with zero endpoint calls; otherwise the calls and pauses are those of the controller, its errors pass through unchanged, an unparsable body is an error, and a success carries the parsed value and its confidence label |
| `Predict.ValidateFeatures` | app.py:81-85 | a request passes exactly when it has 17 features; otherwise it is refused with status 400 |
| `Predict.MismatchDetail` | app.py:84 | the 400 detail is the prefix `Expected 17 features, got ` followed by decimal digits, with no leading zero, that read back as the actual count |
| `Predict.MismatchNamesCount` | app.py:84 | the 400 detail determines the actual feature count |
| `Predict.Confidence` | app.py:96 | `high` iff p > 0.7, `medium` iff 0.3 < p <= 0.7, `low` iff p <= 0.3 |
| `Predict.ConfidenceExactlyOne` | app.py:96 | every prediction gets one of the three labels |
| `Predict.ConfidenceMonotone` | app.py:96 | a larger prediction never gets a lower label |
| `Health.TryReady` | app.py:33-35 | the `try` body returns the endpoint name iff the client is present and the name is non-empty; otherwise it raises 503 `not ready` with no `error` field |
| `Health.ReadyCheck` | app.py:29-37 | ready, with the endpoint name, iff the client is present and the name is non-empty; otherwise 503 with status `not ready` and an `error` field that always holds the text of the wrapped exception |
| `Http.NatToString` | app.py:84 | the rendering of a count is a non-empty string of decimal digits with no leading zero |
| `Http.NatToStringRoundTrip` | app.py:84 | reading the digits of a rendered count back gives the count |

## Left out

- The boto3 `invoke_endpoint` call and the structure of `ClientError` (app.py:14, 46-50, 60): a foreign network client, replaced by the outcome oracle.
- `time.time()` and `time.sleep` (app.py:45, 51, 54, 62, 74): elapsed time is a given input per attempt, and each sleep is an entry in the pause log.
- The CSV encoding of the features (app.py:41): Python's float-to-text conversion. The oracle's outcomes do not depend on the features.
- Reading, decoding and `float()` on the reply body (app.py:91-92): a `parse` parameter stands for them. A failure surfaces as `ParseError(raw)`, because `predict` does not catch the `ValueError` of `float()`. The HTTP answer the framework then gives is not modelled.
- Floating point: elapsed times, predictions and the 0.3 / 0.7 / 5.0 thresholds are Dafny `real`s, an idealisation of IEEE doubles.
- The `error` text in `Health.ReadyCheck`: it is rendered as `"<status>: <detail dict>"`, as Starlette's `HTTPException.__str__` does. Starlette is not part of this model.
- `health` (app.py:24-27): returns a constant.
- FastAPI routing, the pydantic request and response classes, and `HTTPException` (app.py:1-2, 10, 16-21, 24, 78): HTTP outcomes are plain datatypes.
- Concurrency between requests and event-loop blocking: each request is one synchronous call chain.
