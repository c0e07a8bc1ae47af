/** The `/predict` handler: the feature-count guard, the call through the
    retry controller, and the three-way confidence label. */
module Predict {
  import opened Http
  import Retry

  /** The number of features the deployed model expects. */
  const FeatureCount: nat := 17
  /** A prediction above this is "high". */
  const HighAbove: real := 0.7
  /** A prediction above this, and not above `HighAbove`, is "medium". */
  const MediumAbove: real := 0.3

  datatype PredictionResponse = PredictionResponse(prediction: real, confidence: string)

  const MismatchPrefix: string := "Expected 17 features, got "

  /** The 400 detail for a request with `n` features: the fixed prefix,
      then digits, with no leading zero, that read back as `n`. */
  function MismatchDetail(n: nat): (d: string)
    ensures |d| > |MismatchPrefix| && d[..|MismatchPrefix|] == MismatchPrefix
    ensures forall i :: |MismatchPrefix| <= i < |d| ==> IsDigit(d[i])
    ensures |d| == |MismatchPrefix| + 1 || d[|MismatchPrefix|] != '0'
    ensures DigitsValue(d[|MismatchPrefix|..]) == n
  {
    NatToStringRoundTrip(n);
    var d := MismatchPrefix + NatToString(n);
    assert d[|MismatchPrefix|..] == NatToString(n);
    d
  }

  /** The guard at the top of `predict`: a request is accepted exactly when
      it has 17 features, and is otherwise refused with 400. */
  function ValidateFeatures(features: seq<real>): (r: Option<Failure>)
    ensures r.None? <==> |features| == FeatureCount
    ensures r.Some? ==> r.value.HttpError? && r.value.status == 400
  {
    if |features| != FeatureCount then Some(HttpError(400, MismatchDetail(|features|)))
    else None
  }

  /** The 400 detail names the actual count: requests refused with the
      same detail have the same number of features. */
  lemma MismatchNamesCount(a: seq<real>, b: seq<real>)
    requires ValidateFeatures(a).Some?
    requires ValidateFeatures(a) == ValidateFeatures(b)
    ensures |a| == |b|
  {
  }

  /** The confidence label of a prediction. */
  function Confidence(p: real): (level: string)
    ensures level == "high" <==> p > HighAbove
    ensures level == "medium" <==> MediumAbove < p <= HighAbove
    ensures level == "low" <==> p <= MediumAbove
  {
    if p > HighAbove then "high" else if p > MediumAbove then "medium" else "low"
  }

  /** The order of the labels, lowest first. */
  function Rank(level: string): nat {
    if level == "high" then 2 else if level == "medium" then 1 else 0
  }

  /** Exactly one label applies to every prediction. */
  lemma ConfidenceExactlyOne(p: real)
    ensures Confidence(p) in {"high", "medium", "low"}
  {
  }

  /** A larger prediction never gets a lower label. */
  lemma ConfidenceMonotone(p: real, q: real)
    requires p <= q
    ensures Rank(Confidence(p)) <= Rank(Confidence(q))
  {
  }

  /** `predict(request)` with the endpoint's answers taken from `outcomes`
      and `float()` on the reply body given as `parse`. Also returns the
      number of endpoint calls and the pauses slept. */
  method Predict(features: seq<real>, outcomes: seq<Retry.Outcome>, parse: string -> Option<real>)
    returns (r: Result<PredictionResponse>, calls: nat, pauses: seq<nat>)
    requires Retry.DefaultMaxRetries <= |outcomes|
    ensures |features| != FeatureCount ==>
      r == Err(HttpError(400, MismatchDetail(|features|))) && calls == 0 && pauses == []
    ensures |features| == FeatureCount ==>
      var t := Retry.Run(outcomes, Retry.DefaultMaxRetries, 0);
      calls == t.calls && pauses == t.pauses &&
      (t.result.Err? ==> r == Err(t.result.failure)) &&
      (t.result.Ok? && parse(t.result.value).None? ==> r == Err(ParseError(t.result.value))) &&
      (t.result.Ok? && parse(t.result.value).Some? ==> r.Ok? && r.value.prediction == parse(t.result.value).value)
    ensures r.Ok? ==> r.value.confidence == Confidence(r.value.prediction)
  {
    var invalid := ValidateFeatures(features);
    if invalid.Some? {
      return Err(invalid.value), 0, [];
    }
    var reply;
    reply, calls, pauses := Retry.CallEndpointWithRetry(outcomes, Retry.DefaultMaxRetries);
    match reply
    case Err(failure) =>
      r := Err(failure);
    case Ok(raw) =>
      match parse(raw)
      case None =>
        r := Err(ParseError(raw));
      case Some(value) =>
        r := Ok(PredictionResponse(value, Confidence(value)));
  }
}
