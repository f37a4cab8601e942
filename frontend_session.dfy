/**
 * The state and event handlers of the prediction page
 * (frontend/src/App.js:7-98): image selection, parameter edits, the
 * road-condition catalog load and the submit lifecycle. The awaited POST
 * is split into two steps: `Submit` dispatches the request and `Resolve`
 * applies its outcome.
 */
module PredictionSession {
  import opened Wrappers
  import opened AppParameters
  import opened Interpretation

  /** A file picked in the file input. */
  datatype ImageFile = ImageFile(bytes: seq<bv8>)

  /** A URL made by `URL.createObjectURL`; `id` tells URLs apart. */
  datatype ObjectUrl = ObjectUrl(id: nat, file: ImageFile)

  /** One `formData.append(name, value)`. */
  datatype FormField = FileField(name: string, file: ImageFile) | ScalarField(name: string, value: Value)
  {
    function Name(): string
    {
      match this
      case FileField(n, _) => n
      case ScalarField(n, _) => n
    }
  }

  /** How the awaited POST ends: a 2xx response, an error response whose body
      may hold an `error` field, or no response at all. */
  datatype PostOutcome = Success(payload: Payload) | ServerError(errorField: Option<string>) | NetworkError

  /** How the catalog GET ends. */
  datatype CatalogOutcome = CatalogLoaded(conditions: seq<string>) | CatalogFailed

  const MISSING_IMAGE_MESSAGE: string := "Please upload a tire image"
  const PREDICTION_FAILED_MESSAGE: string := "Prediction failed"
  const CATALOG_FAILED_MESSAGE: string := "Failed to load road conditions"

  /** `err.response?.data?.error || 'Prediction failed'`: the server's
      message unless it is missing or empty (an empty string is falsy). */
  function FailureMessage(outcome: PostOutcome): (msg: string)
    requires !outcome.Success?
    ensures msg != []
    ensures outcome.ServerError? && outcome.errorField.Some? && outcome.errorField.value != [] ==> msg == outcome.errorField.value
    ensures !(outcome.ServerError? && outcome.errorField.Some? && outcome.errorField.value != []) ==>
      msg == PREDICTION_FAILED_MESSAGE
  {
    match outcome
    case ServerError(Some(m)) => if m != [] then m else PREDICTION_FAILED_MESSAGE
    case _ => PREDICTION_FAILED_MESSAGE
  }

  /** The road condition chosen after the catalog loads:
      `list.includes('paved') ? 'paved' : list[0]`, where `list[0]` of an
      empty list is `undefined`. */
  function DefaultRoadCondition(conditions: seq<string>): (rc: Option<string>)
    ensures rc == Some("paved") <==> "paved" in conditions
    ensures rc.Some? <==> |conditions| > 0
    ensures rc.Some? ==> rc.value in conditions
    ensures "paved" !in conditions && |conditions| > 0 ==> rc == Some(conditions[0])
  {
    if "paved" in conditions then Some("paved")
    else if |conditions| > 0 then Some(conditions[0])
    else None
  }

  /** The request body `handleSubmit` builds: the image, then one field per
      key of `parameters`, in key order, holding that key's value. */
  ghost predicate IsFormFor(form: seq<FormField>, img: ImageFile, p: Parameters)
  {
    && |form| == |KEYS| + 1
    && form[0] == FileField("image", img)
    && forall i :: 0 <= i < |KEYS| ==> form[i + 1] == ScalarField(KeyName(KEYS[i]), Get(p, KEYS[i]))
  }

  /** The `forEach` over `Object.keys(parameters)` that fills the FormData. */
  method BuildForm(img: ImageFile, p: Parameters) returns (form: seq<FormField>)
    ensures IsFormFor(form, img, p)
  {
    form := [FileField("image", img)];
    var i := 0;
    while i < |KEYS|
      invariant 0 <= i <= |KEYS|
      invariant |form| == i + 1
      invariant form[0] == FileField("image", img)
      invariant forall j :: 0 <= j < i ==> form[j + 1] == ScalarField(KeyName(KEYS[j]), Get(p, KEYS[j]))
    {
      form := form + [ScalarField(KeyName(KEYS[i]), Get(p, KEYS[i]))];
      i := i + 1;
    }
  }

  /** A request body names every key exactly once and the image once, and
      it is determined by the image and the parameters. */
  lemma {:induction false} FormNamesEachKeyOnce(form: seq<FormField>, img: ImageFile, p: Parameters)
    requires IsFormFor(form, img, p)
    ensures forall i, j :: 0 <= i < j < |form| ==> form[i].Name() != form[j].Name()
    ensures forall f :: exists i :: 1 <= i < |form| && form[i] == ScalarField(KeyName(f), Get(p, f))
    ensures forall other :: IsFormFor(other, img, p) ==> other == form
  {
    KeysEnumerateFields();
    forall i, j | 0 <= i < j < |form| ensures form[i].Name() != form[j].Name() {
      if i == 0 {
        assert form[j] == ScalarField(KeyName(KEYS[j - 1]), Get(p, KEYS[j - 1]));
      } else {
        assert form[i] == ScalarField(KeyName(KEYS[i - 1]), Get(p, KEYS[i - 1]));
        assert form[j] == ScalarField(KeyName(KEYS[j - 1]), Get(p, KEYS[j - 1]));
      }
    }
    forall f ensures exists i :: 1 <= i < |form| && form[i] == ScalarField(KeyName(f), Get(p, f)) {
      assert f in KEYS;
      var k :| 0 <= k < |KEYS| && KEYS[k] == f;
      assert form[k + 1] == ScalarField(KeyName(f), Get(p, f));
    }
    forall other | IsFormFor(other, img, p) ensures other == form {
      forall i | 0 <= i < |form| ensures other[i] == form[i] {
        if i > 0 {
          assert other[i] == ScalarField(KeyName(KEYS[i - 1]), Get(p, KEYS[i - 1]));
        }
      }
    }
  }

  /** The component's state. */
  class App {
    var image: Option<ImageFile>
    var imagePreview: Option<ObjectUrl>
    var parameters: Parameters
    var roadConditions: seq<string>
    var result: Option<Payload>
    var error: Option<string>
    var loading: bool
    /** Every object URL the page has created; none is ever revoked. */
    var objectUrls: seq<ObjectUrl>

    ghost predicate Valid()
      reads this
    {
      && (image.Some? <==> imagePreview.Some?)
      && (imagePreview.Some? ==> imagePreview.value in objectUrls && imagePreview.value.file == image.value)
      && (forall i :: 0 <= i < |objectUrls| ==> objectUrls[i].id == i)
    }

    /** The results card as currently rendered, if there is a result. */
    function Card(): Option<Interpreted>
      reads this
    {
      if result.Some? then Some(Interpret(result.value, parameters)) else None
    }

    /** The initial `useState` values. */
    constructor ()
      ensures Valid()
      ensures image == None && imagePreview == None && parameters == INITIAL
      ensures roadConditions == [] && result == None && error == None && !loading
      ensures objectUrls == []
    {
      image := None;
      imagePreview := None;
      parameters := INITIAL;
      roadConditions := [];
      result := None;
      error := None;
      loading := false;
      objectUrls := [];
    }

    /** `handleImageChange`: takes the first picked file, if any, and shows a
        fresh object URL for it. The previous URL stays allocated. */
    method ImageChange(files: seq<ImageFile>)
      requires Valid()
      modifies this
      ensures Valid()
      ensures |files| == 0 ==> image == old(image) && imagePreview == old(imagePreview) && objectUrls == old(objectUrls)
      ensures |files| > 0 ==>
        && image == Some(files[0])
        && imagePreview == Some(ObjectUrl(|old(objectUrls)|, files[0]))
        && objectUrls == old(objectUrls) + [imagePreview.value]
      ensures old(imagePreview).Some? ==> old(imagePreview).value in objectUrls
      ensures parameters == old(parameters) && roadConditions == old(roadConditions)
      ensures result == old(result) && error == old(error) && loading == old(loading)
    {
      if |files| > 0 {
        var file := files[0];
        image := Some(file);
        var url := ObjectUrl(|objectUrls|, file);
        objectUrls := objectUrls + [url];
        imagePreview := Some(url);
      }
    }

    /** `handleParameterChange(name, value)`. */
    method ParameterChange(c: Change)
      requires Valid()
      modifies this`parameters
      ensures Valid()
      ensures parameters == Apply(old(parameters), c)
      ensures Get(parameters, c.Target()) == c.NewValue()
      ensures forall f :: f != c.Target() ==> Get(parameters, f) == Get(old(parameters), f)
      ensures Card() == if old(result).Some? then Some(Interpret(old(result).value, Apply(old(parameters), c))) else None
    {
      parameters := Apply(parameters, c);
    }

    /** The mount effect's catalog request, once it settles. */
    method LoadRoadConditions(outcome: CatalogOutcome)
      requires Valid()
      modifies this`roadConditions, this`parameters, this`error
      ensures Valid()
      ensures outcome.CatalogLoaded? ==>
        && roadConditions == outcome.conditions
        && parameters == old(parameters).(roadCondition := DefaultRoadCondition(outcome.conditions))
        && error == old(error)
      ensures outcome.CatalogFailed? ==>
        && error == Some(CATALOG_FAILED_MESSAGE)
        && parameters == old(parameters) && roadConditions == old(roadConditions)
    {
      match outcome
      case CatalogLoaded(conditions) =>
        roadConditions := conditions;
        parameters := parameters.(roadCondition := DefaultRoadCondition(conditions));
      case CatalogFailed =>
        error := Some(CATALOG_FAILED_MESSAGE);
    }

    /** `handleSubmit` up to the `await`. The submit button is disabled while
        `loading`, so the event only arrives when nothing is in flight.
        Returns the request dispatched, or None when no request is issued. */
    method Submit() returns (request: Option<seq<FormField>>)
      requires Valid()
      requires !loading
      modifies this`loading, this`error, this`result
      ensures Valid()
      ensures old(image).None? ==>
        && request.None?
        && error == Some(MISSING_IMAGE_MESSAGE)
        && loading == old(loading) && result == old(result)
      ensures old(image).Some? ==>
        && request.Some?
        && IsFormFor(request.value, image.value, parameters)
        && loading && error.None? && result.None?
    {
      if image.None? {
        error := Some(MISSING_IMAGE_MESSAGE);
        return None;
      }
      loading := true;
      error := None;
      result := None;
      var form := BuildForm(image.value, parameters);
      request := Some(form);
    }

    /** `handleSubmit` after the `await`: the try, catch and finally blocks. */
    method Resolve(outcome: PostOutcome)
      requires Valid()
      requires loading
      modifies this`loading, this`error, this`result
      ensures Valid()
      ensures !loading
      ensures outcome.Success? ==> result == Some(outcome.payload) && error == old(error)
      ensures !outcome.Success? ==> error == Some(FailureMessage(outcome)) && result == old(result)
    {
      if outcome.Success? {
        result := Some(outcome.payload);
      } else {
        error := Some(FailureMessage(outcome));
      }
      loading := false;
    }
  }
}
