/**
 * `predict_lifespan` of the prediction service (backend/app.py:98-155):
 * the deterministic steps around the two foreign model calls. The CNN and
 * the two regressors are given as functions; their numbers are exact reals.
 */
module Lifespan {
  import opened Wrappers
  import RoadMapping

  /** The preprocessed image the CNN reads; its contents play no part here. */
  datatype Tensor = Tensor(pixels: seq<real>)

  /** The row `input_data` handed to both regressors. */
  datatype Features = Features(
    pressure: real, load: real, tkph: real, temp: real, speed: real,
    condition: int, roadEncoded: int)

  /** The models loaded at startup. */
  datatype Models = Models(
    cnn: Tensor -> real,
    rf: Features -> real,
    gb: Features -> real,
    rfWeight: real,
    gbWeight: real,
    roadMapping: RoadMapping.Table)

  /** The `params` dict `predict` assembles. */
  datatype Params = Params(
    pressure: real, load: real, tkph: real, temp: real, speed: real,
    roadCondition: string)

  datatype DebugInfo = DebugInfo(
    cnnProbability: real,
    condition: int,
    classification: string,
    rfPred: real,
    gbPred: real,
    rfWeight: real,
    gbWeight: real,
    lifespanBeforePenalty: real,
    lifespanAfterPenalty: real)

  datatype Prediction = Prediction(lifespan: real, classification: string, debugInfo: DebugInfo)

  const MIN_KM: real := 5000.0
  const MAX_KM: real := 150000.0
  const DEFECTIVE_FACTOR: real := 0.7

  /** `condition = 1 if p > 0.5 else 0`. */
  function Condition(probability: real): (c: int)
    ensures c == 1 <==> probability > 0.5
    ensures c == 0 <==> probability <= 0.5
  {
    if probability > 0.5 then 1 else 0
  }

  /** `'Good' if condition == 1 else 'Defective'`. */
  function Label(condition: int): string
  {
    if condition == 1 then "Good" else "Defective"
  }

  /** Classification is "Good" exactly above one half. */
  lemma ClassificationThreshold(probability: real)
    ensures Label(Condition(probability)) == "Good" <==> probability > 0.5
    ensures Label(Condition(probability)) == "Defective" <==> probability <= 0.5
  {
  }

  /** `if condition == 0: lifespan *= 0.7`. */
  function Penalize(lifespan: real, condition: int): (r: real)
    ensures condition != 0 ==> r == lifespan
    ensures condition == 0 ==> r == DEFECTIVE_FACTOR * lifespan
    ensures condition == 0 && lifespan > 0.0 ==> r < lifespan
  {
    if condition == 0 then lifespan * DEFECTIVE_FACTOR else lifespan
  }

  /** `max(5000, min(150000, lifespan))`. */
  function Clamp(x: real): (r: real)
    ensures MIN_KM <= r <= MAX_KM
    ensures MIN_KM <= x <= MAX_KM ==> r == x
    ensures x < MIN_KM ==> r == MIN_KM
    ensures x > MAX_KM ==> r == MAX_KM
  {
    var upper := if MAX_KM < x then MAX_KM else x;
    if MIN_KM > upper then MIN_KM else upper
  }

  lemma ClampMonotone(x: real, y: real)
    requires x <= y
    ensures Clamp(x) <= Clamp(y)
  {
  }

  lemma ClampIdempotent(x: real)
    ensures Clamp(Clamp(x)) == Clamp(x)
  {
  }

  /** For the same ensemble output, a defective tyre is never predicted to
      last longer than a good one. */
  lemma DefectiveNeverOutlastsGood(raw: real)
    ensures Clamp(Penalize(raw, 0)) <= Clamp(Penalize(raw, 1))
  {
  }

  /** The weighted ensemble, `rf_weight * rf_pred + gb_weight * gb_pred`. */
  function Ensemble(m: Models, f: Features): real
  {
    m.rfWeight * m.rf(f) + m.gbWeight * m.gb(f)
  }

  function FeaturesOf(params: Params, condition: int, roadEncoded: int): Features
  {
    Features(params.pressure, params.load, params.tkph, params.temp, params.speed, condition, roadEncoded)
  }

  /** The lifespan `predict_lifespan` returns for a known road condition:
      the ensemble output for the classified image, penalised and clamped. */
  function LifespanOf(m: Models, tensor: Tensor, params: Params): (km: real)
    requires RoadMapping.Lower(params.roadCondition) in RoadMapping.Keys(m.roadMapping)
    ensures MIN_KM <= km <= MAX_KM
  {
    var condition := Condition(m.cnn(tensor));
    var road := RoadMapping.Encode(m.roadMapping, params.roadCondition).value;
    Clamp(Penalize(Ensemble(m, FeaturesOf(params, condition, road)), condition))
  }

  /** The `debug_info` dict `predict_lifespan` returns for a known road
      condition: the probability, its condition and label, both regressor
      outputs and weights, and the lifespan before and after the penalty. */
  function DebugOf(m: Models, tensor: Tensor, params: Params): (d: DebugInfo)
    requires RoadMapping.Lower(params.roadCondition) in RoadMapping.Keys(m.roadMapping)
    ensures d.cnnProbability == m.cnn(tensor)
    ensures d.condition == Condition(m.cnn(tensor))
    ensures d.classification == Label(d.condition)
    ensures d.lifespanBeforePenalty == d.rfWeight * d.rfPred + d.gbWeight * d.gbPred
    ensures d.lifespanAfterPenalty == LifespanOf(m, tensor, params)
  {
    var condition := Condition(m.cnn(tensor));
    var road := RoadMapping.Encode(m.roadMapping, params.roadCondition).value;
    var features := FeaturesOf(params, condition, road);
    DebugInfo(m.cnn(tensor), condition, Label(condition), m.rf(features), m.gb(features),
              m.rfWeight, m.gbWeight, Ensemble(m, features), LifespanOf(m, tensor, params))
  }

  /** The message `predict_lifespan` re-raises a failure with. */
  function PredictionError(msg: string): string
  {
    "Prediction error: " + msg
  }

  /** `predict_lifespan`: classify, encode the road condition, run the
      ensemble, penalise a defective tyre, clamp. */
  method PredictLifespan(tensor: Tensor, params: Params, m: Models) returns (r: Result<Prediction>)
    ensures r.Err? <==> RoadMapping.Lower(params.roadCondition) !in RoadMapping.Keys(m.roadMapping)
    ensures r.Err? ==> r.error == PredictionError(RoadMapping.InvalidConditionMessage(m.roadMapping))
    ensures r.Ok? ==>
      var condition := Condition(m.cnn(tensor));
      var road := RoadMapping.Encode(m.roadMapping, params.roadCondition).value;
      var raw := Ensemble(m, FeaturesOf(params, condition, road));
      && r.value.lifespan == LifespanOf(m, tensor, params)
      && r.value.classification == Label(condition)
      && r.value.debugInfo == DebugOf(m, tensor, params)
      && r.value.debugInfo.lifespanBeforePenalty == raw
  {
    var probability := m.cnn(tensor);
    var condition := if probability > 0.5 then 1 else 0;
    var classification := if condition == 1 then "Good" else "Defective";

    var encoded := RoadMapping.Encode(m.roadMapping, params.roadCondition);
    if encoded.Err? {
      return Err(PredictionError(encoded.error));
    }
    var features := FeaturesOf(params, condition, encoded.value);

    var rfPred := m.rf(features);
    var gbPred := m.gb(features);
    var lifespan := m.rfWeight * rfPred + m.gbWeight * gbPred;
    ghost var raw := lifespan;
    if condition == 0 {
      lifespan := lifespan * DEFECTIVE_FACTOR;
    }
    assert lifespan == Penalize(raw, condition);
    lifespan := if MAX_KM < lifespan then MAX_KM else lifespan;
    lifespan := if MIN_KM > lifespan then MIN_KM else lifespan;
    assert lifespan == LifespanOf(m, tensor, params);

    var debugInfo := DebugInfo(probability, condition, classification, rfPred, gbPred,
                               m.rfWeight, m.gbWeight,
                               m.rfWeight * rfPred + m.gbWeight * gbPred, lifespan);
    return Ok(Prediction(lifespan, classification, debugInfo));
  }

  /** Python's `round` on a float: to the nearest integer, ties to even. */
  function RoundHalfEven(x: real): (n: int)
    ensures x - 0.5 <= n as real <= x + 0.5
    ensures x - x.Floor as real == 0.5 ==> n % 2 == 0
  {
    var f := x.Floor;
    var frac := x - f as real;
    if frac < 0.5 then f
    else if frac > 0.5 then f + 1
    else if f % 2 == 0 then f else f + 1
  }

  /** Rounding keeps a value between two integers between them. */
  lemma RoundWithinIntegerBounds(x: real, lo: int, hi: int)
    requires lo as real <= x <= hi as real
    ensures lo <= RoundHalfEven(x) <= hi
  {
  }

  /** `km = round(lifespan)` after the clamp lies in [5000, 150000]. */
  lemma RoundedLifespanInRange(lifespan: real)
    requires MIN_KM <= lifespan <= MAX_KM
    ensures 5000 <= RoundHalfEven(lifespan) <= 150000
  {
  }
}
