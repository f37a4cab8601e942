/**
 * The two HTTP handlers of the prediction service (backend/app.py:157-208):
 * `predict` validates the multipart request, reads the form with defaults,
 * runs `predict_lifespan` and shapes the JSON response; `get_road_conditions`
 * lists the road-condition keys. Routing and JSON encoding are not modelled:
 * a request is its file parts and form fields, a response its status and body.
 */
module PredictApi {
  import opened Wrappers
  import RoadMapping
  import opened Lifespan

  /** A multipart request: `request.files` and `request.form`. */
  datatype Request = Request(files: map<string, seq<bv8>>, form: map<string, string>)

  /** Code the handler calls but that is not modelled: `preprocess_image`
      (its failure message already carries the "Image processing error: "
      prefix) and Python's `float()` on a form string (failing with the
      ValueError message). */
  datatype Collaborators = Collaborators(
    preprocess: seq<bv8> -> Result<Tensor>,
    toFloat: string -> Result<real>)

  datatype Body =
    | ErrorBody(error: string)
    | PredictionBody(lifespanKm: int, classification: string, debugInfo: Option<DebugInfo>)
    | ConditionsBody(roadConditions: seq<string>)

  datatype Response = Response(status: int, body: Body)

  const NO_IMAGE_MESSAGE: string := "No image provided"

  /** The numeric form fields in the order `predict` reads them, with the
      default used when the field is absent. */
  const NUMERIC_KEYS: seq<string> := ["pressure", "load", "tkph", "temp", "speed"]
  const NUMERIC_DEFAULTS: seq<real> := [32.0, 1500.0, 150.0, 25.0, 60.0]
  const DEFAULT_ROAD_CONDITION: string := "paved"

  /** `float(request.form.get(key, default))`: the default is already a float. */
  function NumericField(form: map<string, string>, i: nat, toFloat: string -> Result<real>): (r: Result<real>)
    requires i < |NUMERIC_KEYS|
    ensures NUMERIC_KEYS[i] !in form ==> r == Ok(NUMERIC_DEFAULTS[i])
  {
    if NUMERIC_KEYS[i] in form then toFloat(form[NUMERIC_KEYS[i]]) else Ok(NUMERIC_DEFAULTS[i])
  }

  /** `request.form.get('road_condition', 'paved')`. */
  function RoadField(form: map<string, string>): string
  {
    if "road_condition" in form then form["road_condition"] else DEFAULT_ROAD_CONDITION
  }

  ghost predicate NumbersReadable(form: map<string, string>, toFloat: string -> Result<real>)
  {
    forall i :: 0 <= i < |NUMERIC_KEYS| ==> NumericField(form, i, toFloat).Ok?
  }

  /** Field `i` is the first numeric field `float()` rejects. */
  ghost predicate FirstFailure(form: map<string, string>, toFloat: string -> Result<real>, i: nat)
  {
    && i < |NUMERIC_KEYS|
    && NumericField(form, i, toFloat).Err?
    && forall j :: 0 <= j < i ==> NumericField(form, j, toFloat).Ok?
  }

  /** The `params` dict when every numeric field converts. */
  function ParamsOf(form: map<string, string>, toFloat: string -> Result<real>): (p: Params)
    requires NumbersReadable(form, toFloat)
    ensures "pressure" !in form ==> p.pressure == 32.0
    ensures "load" !in form ==> p.load == 1500.0
    ensures "tkph" !in form ==> p.tkph == 150.0
    ensures "temp" !in form ==> p.temp == 25.0
    ensures "speed" !in form ==> p.speed == 60.0
    ensures p.roadCondition == if "road_condition" in form then form["road_condition"] else "paved"
  {
    Params(NumericField(form, 0, toFloat).value, NumericField(form, 1, toFloat).value,
           NumericField(form, 2, toFloat).value, NumericField(form, 3, toFloat).value,
           NumericField(form, 4, toFloat).value, RoadField(form))
  }

  /** Builds the `params` dict; the first field `float()` rejects raises. */
  method ReadParams(form: map<string, string>, toFloat: string -> Result<real>) returns (r: Result<Params>)
    ensures r.Ok? <==> NumbersReadable(form, toFloat)
    ensures r.Ok? ==> r.value == ParamsOf(form, toFloat)
    ensures r.Err? ==> exists i :: FirstFailure(form, toFloat, i) && r.error == NumericField(form, i, toFloat).error
  {
    var pressure := NumericField(form, 0, toFloat);
    if pressure.Err? { return Err(pressure.error); }
    var load := NumericField(form, 1, toFloat);
    if load.Err? { return Err(load.error); }
    var tkph := NumericField(form, 2, toFloat);
    if tkph.Err? { return Err(tkph.error); }
    var temp := NumericField(form, 3, toFloat);
    if temp.Err? { return Err(temp.error); }
    var speed := NumericField(form, 4, toFloat);
    if speed.Err? { return Err(speed.error); }
    r := Ok(Params(pressure.value, load.value, tkph.value, temp.value, speed.value, RoadField(form)));
  }

  /** A form without the six fields yields the documented defaults. */
  lemma EmptyFormDefaults(form: map<string, string>, toFloat: string -> Result<real>)
    requires forall k :: k in NUMERIC_KEYS ==> k !in form
    requires "road_condition" !in form
    ensures NumbersReadable(form, toFloat)
    ensures NumericField(form, 0, toFloat) == Ok(32.0)
    ensures NumericField(form, 1, toFloat) == Ok(1500.0)
    ensures NumericField(form, 2, toFloat) == Ok(150.0)
    ensures NumericField(form, 3, toFloat) == Ok(25.0)
    ensures NumericField(form, 4, toFloat) == Ok(60.0)
    ensures RoadField(form) == "paved"
  {
  }

  /** `request.form.get('debug_mode', 'false').lower() == 'true'`. */
  function DebugRequested(form: map<string, string>): (on: bool)
    ensures on ==> "debug_mode" in form
  {
    var text := if "debug_mode" in form then form["debug_mode"] else "false";
    RoadMapping.Lower(text) == "true"
  }

  /** The flag is read case-insensitively; "false" or anything else turns it off. */
  lemma DebugSpellings(form: map<string, string>)
    ensures forall s :: DebugRequested(form["debug_mode" := s]) <==> RoadMapping.Lower(s) == "true"
    ensures DebugRequested(form["debug_mode" := "true"])
    ensures DebugRequested(form["debug_mode" := "True"])
    ensures DebugRequested(form["debug_mode" := "TRUE"])
    ensures !DebugRequested(form["debug_mode" := "false"])
    ensures !DebugRequested(form["debug_mode" := "1"])
    ensures !DebugRequested(map[])
  {
  }

  /** Every check of `predict` passes. */
  ghost predicate Succeeds(req: Request, m: Models, env: Collaborators)
  {
    && "image" in req.files
    && env.preprocess(req.files["image"]).Ok?
    && NumbersReadable(req.form, env.toFloat)
    && RoadMapping.Lower(RoadField(req.form)) in RoadMapping.Keys(m.roadMapping)
  }

  /** Image and numbers pass, but the road condition is not in the table. */
  ghost predicate RoadRejected(req: Request, m: Models, env: Collaborators)
  {
    && "image" in req.files
    && env.preprocess(req.files["image"]).Ok?
    && NumbersReadable(req.form, env.toFloat)
    && RoadMapping.Lower(RoadField(req.form)) !in RoadMapping.Keys(m.roadMapping)
  }

  /** The collaborators fail only with a message, as Python exceptions
      raised by them do. */
  ghost predicate MessagesNonEmpty(env: Collaborators)
  {
    && (forall b :: env.preprocess(b).Err? ==> env.preprocess(b).error != [])
    && (forall s :: env.toFloat(s).Err? ==> env.toFloat(s).error != [])
  }

  /** The `predict` handler. */
  method Predict(req: Request, m: Models, env: Collaborators) returns (resp: Response)
    ensures "image" !in req.files ==> resp == Response(400, ErrorBody(NO_IMAGE_MESSAGE))
    ensures resp.status == 200 <==> Succeeds(req, m, env)
    ensures resp.status != 200 ==> resp.body.ErrorBody?
    ensures "image" in req.files ==> resp.status in {200, 500}
    ensures "image" in req.files && env.preprocess(req.files["image"]).Err? ==>
      resp == Response(500, ErrorBody(env.preprocess(req.files["image"]).error))
    ensures "image" in req.files && env.preprocess(req.files["image"]).Ok? && !NumbersReadable(req.form, env.toFloat) ==>
      exists i :: FirstFailure(req.form, env.toFloat, i) && resp == Response(500, ErrorBody(NumericField(req.form, i, env.toFloat).error))
    ensures RoadRejected(req, m, env) ==>
      resp == Response(500, ErrorBody(PredictionError(RoadMapping.InvalidConditionMessage(m.roadMapping))))
    ensures resp.status == 200 ==>
      && resp.body.PredictionBody?
      && 5000 <= resp.body.lifespanKm <= 150000
      && resp.body.classification in {"Good", "Defective"}
      && (resp.body.classification == "Good" <==> m.cnn(env.preprocess(req.files["image"]).value) > 0.5)
      && (resp.body.debugInfo.Some? <==> DebugRequested(req.form))
    ensures resp.status == 200 ==>
      var tensor := env.preprocess(req.files["image"]).value;
      var lifespan := LifespanOf(m, tensor, ParamsOf(req.form, env.toFloat));
      && resp.body.lifespanKm == RoundHalfEven(lifespan)
      && resp.body.classification == Label(Condition(m.cnn(tensor)))
      && resp.body.debugInfo == (if DebugRequested(req.form) then Some(DebugOf(m, tensor, ParamsOf(req.form, env.toFloat))) else None)
    ensures MessagesNonEmpty(env) && resp.body.ErrorBody? ==> resp.body.error != []
  {
    if "image" !in req.files {
      return Response(400, ErrorBody(NO_IMAGE_MESSAGE));
    }
    var tensor := env.preprocess(req.files["image"]);
    if tensor.Err? {
      return Response(500, ErrorBody(tensor.error));
    }
    var params := ReadParams(req.form, env.toFloat);
    if params.Err? {
      return Response(500, ErrorBody(params.error));
    }
    var prediction := PredictLifespan(tensor.value, params.value, m);
    if prediction.Err? {
      return Response(500, ErrorBody(prediction.error));
    }
    var km := RoundHalfEven(prediction.value.lifespan);
    RoundedLifespanInRange(prediction.value.lifespan);
    var debugInfo := if DebugRequested(req.form) then Some(prediction.value.debugInfo) else None;
    resp := Response(200, PredictionBody(km, prediction.value.classification, debugInfo));
  }

  /** The `get_road_conditions` handler. */
  function GetRoadConditions(m: Models): (resp: Response)
    ensures resp.status == 200 && resp.body.ConditionsBody?
    ensures RoadMapping.Sorted(resp.body.roadConditions)
    ensures multiset(resp.body.roadConditions) == multiset(RoadMapping.Keys(m.roadMapping))
  {
    Response(200, ConditionsBody(RoadMapping.SortedKeys(m.roadMapping)))
  }
}
