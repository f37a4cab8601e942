# Tire lifespan predictor — verified model of the prediction session and the service glue

The system predicts how many kilometres a tyre will last from a photo and a
few operating measurements. A React page (`frontend/src/App.js`) holds the
inputs, sends one multipart request to a Flask service (`backend/app.py`)
and interprets the answer; the service classifies the photo with a CNN,
runs a weighted two-model ensemble, penalises defective tyres, clamps the
result and returns it.

This project models, in Dafny, the decision logic around those black-box
model calls:

- `frontend_parameters.dfy` (`AppParameters`): the `parameters` object —
  seven keys in literal order, their values, and the spread update of
  `handleParameterChange`.
- `frontend_interpretation.dfy` (`Interpretation`): the results card —
  progress percentage clamped at 100, the three maintenance boxes split at
  30 000 and 60 000 km, the "outside typical ranges" note and the debug
  panel, all computed from the stored result and the *current* parameters.
- `frontend_session.dfy` (`PredictionSession`): the component state as a
  class `App` with the event handlers as methods. The awaited POST is two
  steps: `Submit` (validate, set `loading`, clear `error`/`result`, build
  the form, dispatch) and `Resolve` (store the payload or the error message,
  clear `loading`). The form is built by a loop, `BuildForm`.
- `backend_road_mapping.dfy` (`RoadMapping`): the road-condition dict built
  from the encoder's classes (lowercased, last index wins, insertion order
  kept), its case-insensitive lookup with the "Invalid road condition"
  error, and `sorted()` of its keys (insertion sort on code-point order).
- `backend_lifespan.dfy` (`Lifespan`): `predict_lifespan` — threshold 0.5,
  the 0.7 penalty for defective tyres, the clamp to [5000, 150000] — and
  Python's `round` (half to even).
- `backend_api.dfy` (`PredictApi`): the `predict` handler (400 without an
  image part, form defaults, first failing `float()` wins, every exception
  becomes a 500 with its message, `debug_info` only when `debug_mode`
  lowercases to "true") and `get_road_conditions`.
- `integration.dfy` (`Integration`): the page's multipart body as the
  service reads it, and the service's response as the page's outcome.
- `wrappers.dfy` (`Wrappers`): `Option` and `Result`.

The CNN, the two regressors, `preprocess_image`, Python's `float()` and
JavaScript's number-to-string conversion are parameters (functions) of the
model. Numbers are exact `real`s.

Where the code behaves differently from what a reader might expect, the model follows the code:

- Selecting a new image never revokes the previous object URL
  (frontend/src/App.js:60). `App.objectUrls` only grows; no handle is ever
  released.
- The page has no in-flight guard of its own; only `disabled={loading}` on
  the button (frontend/src/App.js:219) stops a second submit. `App.Submit`
  therefore *requires* `!loading`.
- The warning note and the debug panel read the live `parameters` at render
  time (frontend/src/App.js:259, 299), so editing an input after a result
  arrived changes them (`Interpretation.InterpretationFollowsLiveParameters`).
- A submit without an image only sets the error; it does not clear an
  earlier `result`, which stays on screen.
- A catalog whose list is empty sets `road_condition` to `undefined`
  (`list[0]`), which the form then sends as the text "undefined".
- A server error whose `error` field is empty falls back to
  "Prediction failed", because `||` treats the empty string as false.

## Model

| member | source | states |
|---|---|---|
| `AppParameters.Apply` | frontend/src/App.js:65-67 | a parameter change sets the named key to the new value and leaves every other key's value unchanged |
| `AppParameters.KeysEnumerateFields` | frontend/src/App.js:9-17 | the key order lists each of the seven keys exactly once, under seven distinct names |
| `AppParameters.GetDeterminesParameters` | frontend/src/App.js:9-17 | two parameter states that agree on every key are equal |
| `AppParameters.ApplyIdempotentAndLastWins` | frontend/src/App.js:65-67 | a second change to the same key overrides the first; re-setting a key to its current value changes nothing |
| `AppParameters.ApplyCommutes` | frontend/src/App.js:65-67 | changes to different keys commute |
| `Interpretation.ProgressPercent` | frontend/src/App.js:255 | the bar never exceeds 100 %, is exactly 100 % iff km ≥ 150000, is km/1500 below that and is non-negative for non-negative km |
| `Interpretation.MaintenanceBucket` | frontend/src/App.js:267-297 | the nested conditional that picks the suggestion box; characterised by `BucketCharacterisation`, `BucketMonotone` and `BucketAgreesWithProgress` |
| `Interpretation.BucketCharacterisation` | frontend/src/App.js:267-297 | exactly one box applies: Short iff km < 30000, Average iff 30000 ≤ km < 60000, Good iff km ≥ 60000 |
| `Interpretation.BucketMonotone` | frontend/src/App.js:267-297 | a longer lifespan never gets a worse box |
| `Interpretation.BucketAgreesWithProgress` | frontend/src/App.js:255-297 | Short iff the bar is below 20 %, Good iff it is at least 40 % |
| `Interpretation.OutsideTypicalRanges` | frontend/src/App.js:299 | the warning condition as written; characterised by `WarningIffSomeKeyExceeds` and `WarningIgnoresOtherKeys` |
| `Interpretation.WarningIffSomeKeyExceeds` | frontend/src/App.js:299 | the note shows iff pressure, load, temp or speed holds a number above its typical limit (50, 5000, 50, 120) |
| `Interpretation.WarningIgnoresOtherKeys` | frontend/src/App.js:299 | changing tkph, road condition or the debug flag never changes the note |
| `Interpretation.InitialIsTypical` | frontend/src/App.js:9-17 | the initial inputs raise no note |
| `Interpretation.DebugPanel` | frontend/src/App.js:259 | the panel shows iff the checkbox is ticked now and the payload has debug info, and then shows that info |
| `Interpretation.Interpret` | frontend/src/App.js:238-305 | the card's progress is at most 100, its box is the box of the stored km, and it shows debug info only when the checkbox is ticked |
| `Interpretation.InterpretationFollowsLiveParameters` | frontend/src/App.js:299 | with a typical input set, raising pressure to any value above 50 after a result arrived turns the note on for the same result |
| `Interpretation.UntickingHidesDebug` | frontend/src/App.js:259 | unticking the checkbox hides the debug panel of a result already shown |
| `Interpretation.BoundaryExamples` | frontend/src/App.js:255-299 | boxes at 29999.999, 30000, 59999.999, 60000; bar at 225000 is 100 and at 75000 is 50; the note for pressure 50.1 but not 50.0 |
| `PredictionSession.FailureMessage` | frontend/src/App.js:93 | the error shown after a failed POST is never empty: the server's `error` field when it is present and non-empty, otherwise (missing field, empty field, no response) "Prediction failed" |
| `PredictionSession.DefaultRoadCondition` | frontend/src/App.js:46 | "paved" iff the list contains it; otherwise the first element; undefined iff the list is empty; when defined it is in the list |
| `PredictionSession.BuildForm` | frontend/src/App.js:81-85 | the body holds the image, then one field per parameter key in key order, each holding that key's value |
| `PredictionSession.FormNamesEachKeyOnce` | frontend/src/App.js:81-85 | the body names the image and every key exactly once, and is determined by the image and the parameters |
| `PredictionSession.App.constructor` | frontend/src/App.js:7-21 | the page starts with no image, no preview, default parameters, empty catalog, no result, no error, not loading |
| `PredictionSession.App.Card` | frontend/src/App.js:238-305 | the results card as rendered: present iff a result is stored, interpreted with the current parameters; its behaviour under edits is stated by `App.ParameterChange` |
| `PredictionSession.App.ImageChange` | frontend/src/App.js:56-62 | with a file picked, the image becomes the first file and a new object URL for it is shown; earlier URLs stay allocated; with none picked nothing changes |
| `PredictionSession.App.ParameterChange` | frontend/src/App.js:65-67 | only the named key changes; the card becomes the old result interpreted with the updated parameters, or stays absent |
| `PredictionSession.App.LoadRoadConditions` | frontend/src/App.js:40-53 | on success the list is stored and the road condition becomes its default; on failure the error is "Failed to load road conditions" and list and parameters are unchanged |
| `PredictionSession.App.Submit` | frontend/src/App.js:70-85 | without an image: error "Please upload a tire image", no request, loading and result unchanged; with one: loading on, error and result cleared, and the request is the image plus every parameter |
| `PredictionSession.App.Resolve` | frontend/src/App.js:87-97 | loading ends off; success stores the payload and leaves the error; failure stores the failure message and leaves the result |
| `RoadMapping.Lower` | backend/app.py:52 | `str.lower()` on ASCII (also used at app.py:111 and :192); proved idempotent by `LowerIdempotent` |
| `RoadMapping.LowerIdempotent` | backend/app.py:52 | lowercasing twice equals lowercasing once |
| `RoadMapping.PutSpec` | backend/app.py:52 | a dict assignment keeps keys distinct and replaces the key's entry, keeping all other entries |
| `RoadMapping.Build` | backend/app.py:52 | the dict comprehension over the encoder's classes; characterised by `BuildSpec` and `EncodeBuiltTable` |
| `RoadMapping.BuildSpec` | backend/app.py:52 | the table has distinct keys, every lowercased class is a key, and each key maps to the last class position that lowercases to it |
| `RoadMapping.Get` | backend/app.py:111 | a found index is the key's entry; not found means the key is absent |
| `RoadMapping.InvalidConditionMessage` | backend/app.py:113-114 | "Invalid road condition. Valid options: " followed by the `repr` of the key list in table order (via `ListRepr` and `JoinReprs`); stated for an unknown condition by `Encode` |
| `RoadMapping.Encode` | backend/app.py:111-114 | fails iff the lowercased input is not a key, then with "Invalid road condition. Valid options: " and the key list; otherwise returns that key's entry |
| `RoadMapping.EncodeBuiltTable` | backend/app.py:52-114 | a condition is accepted iff it equals some class up to case, and is encoded as the last such class's position |
| `RoadMapping.BuiltKeyFound` | backend/app.py:111 | every key of the built table is encoded, by its own spelling or any spelling equal up to case, as its own position |
| `RoadMapping.EncodeIgnoresCase` | backend/app.py:111 | spellings equal up to case are encoded alike |
| `RoadMapping.ClassNameAccepted` | backend/app.py:52-114 | every class name, in any ASCII case, is accepted |
| `RoadMapping.LexTotal` | backend/app.py:204 | string order is total |
| `RoadMapping.LexAntisymmetric` | backend/app.py:204 | string order is antisymmetric |
| `RoadMapping.LexTransitive` | backend/app.py:204 | string order is transitive |
| `RoadMapping.SortedPermutationUnique` | backend/app.py:204 | two sorted permutations of one list of str are equal, so the sort result is determined |
| `RoadMapping.InsertSpec` | backend/app.py:204 | inserting into a sorted list keeps it sorted and adds exactly that element |
| `RoadMapping.Sort` | backend/app.py:204 | `sorted()` on a list of str, as insertion sort; characterised by `SortSpec` |
| `RoadMapping.SortSpec` | backend/app.py:204 | sorting yields a sorted permutation of its input |
| `RoadMapping.SortedKeys` | backend/app.py:204 | the listing is sorted and a permutation of the table's keys |
| `RoadMapping.SortedKeysUnique` | backend/app.py:204 | any sorted permutation of the keys is the listing, so it is exactly `sorted(road_mapping.keys())` |
| `RoadMapping.SortedKeysListing` | backend/app.py:204 | the listing holds exactly the keys, each once, strictly ascending |
| `Lifespan.Condition` | backend/app.py:107 | condition is 1 iff the CNN probability exceeds 0.5, else 0 |
| `Lifespan.Label` | backend/app.py:108 | the classification string of a condition; characterised by `ClassificationThreshold` |
| `Lifespan.ClassificationThreshold` | backend/app.py:107-108 | "Good" iff probability > 0.5, "Defective" iff ≤ 0.5 |
| `Lifespan.Penalize` | backend/app.py:133-134 | a defective tyre's lifespan is multiplied by 0.7 (so a positive one strictly decreases); a good tyre's is unchanged |
| `Lifespan.Clamp` | backend/app.py:137 | the result lies in [5000, 150000], is the input when already in range, and the nearer bound otherwise |
| `Lifespan.ClampMonotone` | backend/app.py:137 | the clamp preserves order |
| `Lifespan.ClampIdempotent` | backend/app.py:137 | clamping twice equals clamping once |
| `Lifespan.DefectiveNeverOutlastsGood` | backend/app.py:133-137 | for the same ensemble output a defective tyre's lifespan is at most a good one's |
| `Lifespan.LifespanOf` | backend/app.py:128-137 | for a known road condition, the clamped, penalised ensemble output of the classified image, always in [5000, 150000] |
| `Lifespan.Ensemble` | backend/app.py:128-130 | the weighted sum of the two regressor outputs; its use is stated by `LifespanOf` and `DebugOf` |
| `Lifespan.DebugOf` | backend/app.py:139-149 | the nine-field `debug_info` record: probability, its condition and label, regressor outputs and weights, the pre-penalty sum of the weighted outputs and `LifespanOf` |
| `Lifespan.PredictionError` | backend/app.py:155 | the message a failure inside `predict_lifespan` is re-raised with; stated for an unknown road by `PredictLifespan` and `Predict` |
| `Lifespan.PredictLifespan` | backend/app.py:98-155 | fails iff the road condition is unknown, with "Prediction error: Invalid road condition…"; otherwise the lifespan is `LifespanOf` (the clamped, penalised ensemble output), the classification is the label of the 0.5 threshold, and the debug info is exactly `DebugOf`: probability, condition, label, both regressor outputs and weights, the weighted sum before the penalty and the final lifespan |
| `Lifespan.RoundHalfEven` | backend/app.py:186 | the rounded value is within one half of its input, and a tie (fractional part exactly one half) goes to the even integer, as Python's `round` does |
| `Lifespan.RoundWithinIntegerBounds` | backend/app.py:186 | rounding a value between two integers stays between them |
| `Lifespan.RoundedLifespanInRange` | backend/app.py:137-186 | the returned `lifespan_km` lies in [5000, 150000] |
| `PredictApi.NumericField` | backend/app.py:172-176 | an absent numeric field reads as its default |
| `PredictApi.RoadField` | backend/app.py:177 | the road condition read from the form, "paved" when absent; its default is stated by `ParamsOf` |
| `PredictApi.ParamsOf` | backend/app.py:171-178 | when every numeric field converts, the params: each absent field takes its default (32.0, 1500.0, 150.0, 25.0, 60.0) and the road condition is the form's or "paved" |
| `PredictApi.ReadParams` | backend/app.py:171-178 | succeeds iff every numeric field converts, and then yields `ParamsOf` the form; otherwise fails with the first failing field's message |
| `PredictApi.EmptyFormDefaults` | backend/app.py:171-178 | missing fields default to 32.0, 1500.0, 150.0, 25.0, 60.0 and "paved" |
| `PredictApi.DebugRequested` | backend/app.py:192 | debug output is requested only if the form has a `debug_mode` field |
| `PredictApi.DebugSpellings` | backend/app.py:192 | a `debug_mode` value enables debug output iff it lowercases to "true" (so "true", "True", "TRUE" do); "false", "1" or no field disables it |
| `PredictApi.Predict` | backend/app.py:157-198 | no image part: 400 "No image provided"; 200 iff every step succeeds; otherwise 500 with the exception's message (preprocessing, `float()` or the road condition); a 200 body has km = round(`LifespanOf` the preprocessed image and `ParamsOf` the form), so in [5000, 150000], the label of that image's condition ("Good" iff probability > 0.5), and debug info iff requested, and then exactly `DebugOf` that image and those params (all nine fields); an error body's message is non-empty whenever the collaborators' messages are |
| `PredictApi.GetRoadConditions` | backend/app.py:200-205 | 200 with the table's keys, sorted |
| `Integration.FieldText` | frontend/src/App.js:84 | the text `FormData.append` makes of a parameter value; stated per key by `SubmittedField` and `DebugFlagRoundTrip` |
| `Integration.ToRequestParts` | backend/app.py:161-177 | each uniquely named part of the page's body reaches the service's files or form under its name |
| `Integration.SubmittedRequestHasImage` | frontend/src/App.js:81-82 | every body the page sends has the image part, so the service never answers it with 400 |
| `Integration.SubmittedField` | frontend/src/App.js:83-85 | every parameter key reaches the service's form as the text of its value |
| `Integration.DebugFlagRoundTrip` | backend/app.py:192 | the service includes debug info exactly when the page's checkbox was ticked at submit time |
| `Integration.RoadConditionTransmitted` | frontend/src/App.js:46 | the selected road condition reaches the service verbatim, and "undefined" after an empty catalog |
| `Integration.ToOutcome` | frontend/src/App.js:88-93 | a 2xx prediction response becomes the page's success payload, any other response a server error carrying its `error` field; characterised by `ServerMessageShown` |
| `Integration.ServedLifespanProgress` | frontend/src/App.js:255 | any lifespan the service returns fills between 10/3 % and 100 % of the bar |
| `Integration.ServerMessageShown` | frontend/src/App.js:93 | a service error message reaches the page's error display unchanged |

## Left out

- Rendering, layout and `toLocaleString` formatting (frontend/src/App.js:100-313), except the values the card derives.
- Theme toggling and its `localStorage`/`document` access (frontend/src/App.js:22-37): browser I/O.
- HTTP transport, Flask routing, CORS and logging: a request is dispatched by `App.Submit` and settled by `App.Resolve` / `App.LoadRoadConditions` with an outcome value; the catalog request's dispatch is not a state change and is not modelled.
- `URL.createObjectURL` is modelled only as a fresh numbered handle for the file.
- Model loading, file checks and image preprocessing (backend/app.py:20-96): `preprocess_image` is a parameter whose failure message is taken as given; its `None` check at backend/app.py:167 and the `lifespan is None` check at backend/app.py:182 cannot fire and are not modelled, nor is the unreachable `image_tensor is None` check at backend/app.py:102.
- The CNN and ensemble calls (backend/app.py:106, 128-130) are parameters and assumed not to raise; the `except` of `get_road_conditions` (backend/app.py:206-208) is not modelled for the same reason.
- `lifespan_miles` (backend/app.py:187): float multiplication and rounding; the page's payload carries it as an opaque number.
- Floating-point behaviour, NaN and `parseFloat` corner cases: numbers are exact reals, so `km / 150000 * 100` is exactly `km / 1500`.
- JSON serialisation of the debug dict and of numbers; `Number.prototype.toString` is a parameter of `Integration.FieldText`.
- `handleParameterChange` with a name other than the seven keys, or a value of another type: no input of the page issues one, so `AppParameters.Change` admits only the seven keys with the types their inputs produce.
- `RoadMapping.Lower`: lowercases ASCII letters only; Python's `str.lower` also maps other Unicode letters.
- `RoadMapping.Repr`: renders every key single-quoted; Python switches quotes or escapes for keys containing quotes, backslashes or unprintable characters.
- `PredictionSession.App.Resolve`: requires `loading`, i.e. that it settles a request `Submit` dispatched; interleaving of the catalog load with a pending prediction is allowed, so success keeps whatever error is current (null when nothing intervened).
