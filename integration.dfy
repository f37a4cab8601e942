/**
 * How the page and the service meet: the multipart body the page sends
 * (frontend/src/App.js:81-88) as the request the service reads
 * (backend/app.py:161-192), and the service's response as the outcome the
 * page's `handleSubmit` handles.
 */
module Integration {
  import opened Wrappers
  import opened AppParameters
  import Interpretation
  import opened PredictionSession
  import PredictApi
  import RoadMapping
  import Lifespan

  /** `String(value)` as FormData applies it; `numText` is
      `Number.prototype.toString`, which is not modelled. */
  function FieldText(v: Value, numText: real -> string): string
  {
    match v
    case Num(x) => numText(x)
    case Text(s) => s
    case Flag(b) => if b then "true" else "false"
    case Undefined => "undefined"
  }

  /** The multipart body as the service sees it: file parts go to
      `request.files`, the rest to `request.form`; for a repeated name the
      first part wins, as `MultiDict.get` returns it. */
  function ToRequest(form: seq<FormField>, numText: real -> string): PredictApi.Request
  {
    if form == [] then PredictApi.Request(map[], map[])
    else
      var rest := ToRequest(form[1..], numText);
      match form[0]
      case FileField(n, f) => rest.(files := rest.files[n := f.bytes])
      case ScalarField(n, v) => rest.(form := rest.form[n := FieldText(v, numText)])
  }

  /** A scalar part reaches `request.form` under its name, and a file part
      reaches `request.files`. */
  lemma {:induction false} ToRequestParts(form: seq<FormField>, numText: real -> string, i: nat)
    requires i < |form|
    requires forall a, b :: 0 <= a < b < |form| ==> form[a].Name() != form[b].Name()
    ensures form[i].ScalarField? ==>
      form[i].name in ToRequest(form, numText).form &&
      ToRequest(form, numText).form[form[i].name] == FieldText(form[i].value, numText)
    ensures form[i].FileField? ==>
      form[i].name in ToRequest(form, numText).files &&
      ToRequest(form, numText).files[form[i].name] == form[i].file.bytes
  {
    if i > 0 {
      ToRequestParts(form[1..], numText, i - 1);
      assert form[1..][i - 1] == form[i];
      assert form[0].Name() != form[i].Name();
    }
  }

  /** Every body `handleSubmit` sends carries the image, so the service never
      answers it with "No image provided". */
  lemma SubmittedRequestHasImage(form: seq<FormField>, img: ImageFile, p: Parameters, numText: real -> string)
    requires IsFormFor(form, img, p)
    ensures "image" in ToRequest(form, numText).files
    ensures ToRequest(form, numText).files["image"] == img.bytes
  {
  }

  /** The key `f` reaches the service as the text of its value. */
  lemma SubmittedField(form: seq<FormField>, img: ImageFile, p: Parameters, numText: real -> string, k: nat)
    requires IsFormFor(form, img, p)
    requires k < |KEYS|
    ensures KeyName(KEYS[k]) in ToRequest(form, numText).form
    ensures ToRequest(form, numText).form[KeyName(KEYS[k])] == FieldText(Get(p, KEYS[k]), numText)
  {
    FormNamesEachKeyOnce(form, img, p);
    ToRequestParts(form, numText, k + 1);
  }

  /** The debug checkbox round-trips: the service includes `debug_info`
      exactly when the box was ticked at submit time. */
  lemma DebugFlagRoundTrip(form: seq<FormField>, img: ImageFile, p: Parameters, numText: real -> string)
    requires IsFormFor(form, img, p)
    ensures PredictApi.DebugRequested(ToRequest(form, numText).form) == p.debugMode
  {
    SubmittedField(form, img, p, numText, 6);
    assert RoadMapping.Lower("true") == "true";
    assert RoadMapping.Lower("false") == "false";
  }

  /** The selected road condition reaches the service verbatim; after an
      empty catalog it is the text "undefined". */
  lemma RoadConditionTransmitted(form: seq<FormField>, img: ImageFile, p: Parameters, numText: real -> string)
    requires IsFormFor(form, img, p)
    ensures PredictApi.RoadField(ToRequest(form, numText).form) ==
      if p.roadCondition.Some? then p.roadCondition.value else "undefined"
  {
    SubmittedField(form, img, p, numText, 5);
  }

  /** The page's view of a service response: 2xx is a success, anything else
      an error response whose body has the `error` field. */
  function ToOutcome(resp: PredictApi.Response, miles: real, debugText: Lifespan.DebugInfo -> string): PostOutcome
  {
    if 200 <= resp.status < 300 && resp.body.PredictionBody? then
      var debug := if resp.body.debugInfo.Some?
                   then Some(Interpretation.DebugDetails(debugText(resp.body.debugInfo.value))) else None;
      Success(Interpretation.Payload(resp.body.lifespanKm as real, miles, resp.body.classification, debug))
    else if resp.body.ErrorBody? then ServerError(Some(resp.body.error))
    else ServerError(None)
  }

  /** A lifespan the service serves always fills the progress bar partly:
      at least a thirtieth, at most all of it. */
  lemma ServedLifespanProgress(km: int)
    requires 5000 <= km <= 150000
    ensures 10.0 / 3.0 <= Interpretation.ProgressPercent(km as real) <= 100.0
  {
  }

  /** The non-empty message of a service error response is shown as is;
      `PredictApi.Predict` sends only non-empty ones when its collaborators
      fail with non-empty messages. */
  lemma ServerMessageShown(resp: PredictApi.Response, miles: real, debugText: Lifespan.DebugInfo -> string)
    requires resp.status == 500 && resp.body.ErrorBody? && resp.body.error != []
    ensures FailureMessage(ToOutcome(resp, miles, debugText)) == resp.body.error
  {
  }
}
