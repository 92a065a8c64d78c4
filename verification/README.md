# DiaPredict in Dafny

A model of the decision logic of DiaPredict, a diabetes-risk web app. The
user moves through three screens (landing, assessment form, result). The form
collects eight patient vitals and posts them to a FastAPI `/predict` endpoint.
The endpoint feeds them to a pickled classifier, labels the risk and returns
the classifier's feature weights. The result screen picks a theme from the
risk label, explains the predicted class, draws a probability gauge and ranks
the contributing factors as bars.

Modules, one per source file or concern:

- `Wrappers` (`wrappers.dfy`): `Option` for JavaScript `null` and Python `None`, and `Result` for the endpoint's error path.
- `Importance` (`importance.dfy`): a feature-importance dictionary as an ordered list of `Entry(name, weight)`, in the order `Object.entries` returns its entries. Python dicts keep insertion order. `Object.entries` keeps it too for non-numeric keys such as the eight column names the backend sends; integer-like keys would come first, in ascending numeric order. That order decides ties in the ranking.
- `Backend` (`backend.dfy`): `predict_diabetes` in `backend/main.py`. The classifier is a `Model` value. Its two prediction calls are function-typed fields, and `feature_importances_` and `coef_` are optional vectors.
- `PredictionForm` (`prediction_form.dfy`): the vitals record, field updates with `parseFloat(v) || 0` coercion, the endpoint URL, and the class `FormState` for the `loading`/`error` lifecycle. The network outcome is an input to `FormState.Complete`.
- `ResultDisplay` (`result_display.dfy`): theme, explanation, gauge, the stable descending sort of the weights, and bar widths. All of these are pure functions.
- `App` (`app.dfy`): the class `AppState` with its two state cells, the mounted form and four handlers, the page-to-screen selection, and the form's `onPredict` wiring.
- `Wire` (`wire.dfy`): facts that span the HTTP boundary. These cover the request keys against the backend's column order and the backend's labels against the result screen's theme selection.

Points of the code that the model keeps as written:

- The result screen's theme selection expects the labels `"High"`/`"Medium"` (healthcareai-main/frontend/src/components/ResultDisplay.jsx:37-38), while the backend emits `"High Risk"`/`"Low Risk"` (backend/main.py:77). See "## Findings".
- `handlePredict` has no page guard: it switches to the result screen from any page.
- The navbar logo is a fourth transition. It goes to the landing page and keeps the stored result.
- The form is mounted afresh, with its default record, each time the predict page is entered. It is discarded when the page is left.

## Model

| member | source | states |
|---|---|---|
| `App.ScreenFor` | frontend/src/App.jsx:89-123 | exactly one screen per page value; the result screen receives the stored result |
| `App.AppState.constructor` | frontend/src/App.jsx:9-10 | starts on the landing page with no result and no form mounted, so both invariants hold |
| `App.AppState.HandleStart` | frontend/src/App.jsx:12-14 | page becomes predict and the result is kept; entering the page mounts a fresh form with the default record, not loading and no error; the invariants hold afterwards |
| `App.AppState.HandlePredict` | frontend/src/App.jsx:16-19 | result becomes the data and page becomes result, from any page, and the form is unmounted; the invariant "result page implies a result" holds afterwards iff the data is not null |
| `App.AppState.HandleReset` | frontend/src/App.jsx:21-24 | page becomes landing, the result is cleared and the form unmounted |
| `App.AppState.ClickLogo` | frontend/src/App.jsx:54 | page becomes landing, result kept, form unmounted, invariants hold |
| `App.AppState.CurrentScreen` | frontend/src/App.jsx:88-124 | the rendered screen is the page's screen; under the invariant a result screen always has a payload |
| `App.FinishRequest` | frontend/src/App.jsx:109 | a settled request keeps the form's record; on success the form stays loading, the app shows the result screen with the payload and unmounts the form; on failure the form shows the connection error and stops loading, and the app is unchanged |
| `App.ResetThenStart` | frontend/src/App.jsx:12-24 | after "Start New Assessment" and the call to action, no result is stored and a fresh form shows the default record |
| `PredictionForm.InitialFormData` | healthcareai-main/frontend/src/components/PredictionForm.jsx:54-63 | the eight fields start at 0, 100, 72, 20, 0, 30.0, 0.50, 30 |
| `PredictionForm.WithField` | healthcareai-main/frontend/src/components/PredictionForm.jsx:70-73 | the named field takes the new value; every other field is unchanged |
| `PredictionForm.Coerce` | healthcareai-main/frontend/src/components/PredictionForm.jsx:72 | no numeric prefix stores 0; otherwise the parsed number is stored (0 stays 0) |
| `PredictionForm.CoerceIsIdempotent` | healthcareai-main/frontend/src/components/PredictionForm.jsx:72 | coercing a coerced value changes nothing |
| `PredictionForm.HandleChange` | healthcareai-main/frontend/src/components/PredictionForm.jsx:68-74 | a change stores the coerced input in its field and leaves the other seven alone |
| `PredictionForm.Body` | healthcareai-main/frontend/src/components/PredictionForm.jsx:88 | the body has eight distinct keys and carries every field under its own name |
| `PredictionForm.ApiBase` | healthcareai-main/frontend/src/components/PredictionForm.jsx:81 | an unset or empty variable selects `http://localhost:8000`; any other value is used as is |
| `PredictionForm.StripTrailingSlash` | healthcareai-main/frontend/src/components/PredictionForm.jsx:83 | exactly one final `/` is removed when present; a URL without one is unchanged |
| `PredictionForm.PredictUrl` | healthcareai-main/frontend/src/components/PredictionForm.jsx:85 | the target always ends in `/predict` |
| `PredictionForm.PredictUrlJoinsBase` | healthcareai-main/frontend/src/components/PredictionForm.jsx:81-85 | a base ending in `/` gives base + `predict`; any other base gives base + `/predict` |
| `PredictionForm.OnlyOneSlashRemoved` | healthcareai-main/frontend/src/components/PredictionForm.jsx:83 | a base ending in `//` keeps a doubled slash before `predict` |
| `PredictionForm.FormState.constructor` | healthcareai-main/frontend/src/components/PredictionForm.jsx:54-66 | default record, not loading, no error, nothing in flight |
| `PredictionForm.FormState.Change` | healthcareai-main/frontend/src/components/PredictionForm.jsx:68-74 | the record is updated by `HandleChange`; loading and error untouched |
| `PredictionForm.FormState.Submit` | healthcareai-main/frontend/src/components/PredictionForm.jsx:76-89 | while loading the disabled button does nothing; otherwise loading is set, the error cleared, and a POST of the whole record goes to `PredictUrl` |
| `PredictionForm.FormState.Complete` | healthcareai-main/frontend/src/components/PredictionForm.jsx:91-100 | an ok, parsable response is handed to `onPredict` and loading stays set; a non-ok status, a rejected fetch or an unparsable body sets the fixed message, clears loading and calls nothing |
| `ResultDisplay.ThemeFor` | healthcareai-main/frontend/src/components/ResultDisplay.jsx:37-41 | red/AlertTriangle iff the label is exactly "High"; amber/Info iff exactly "Medium"; green/CheckCircle for every other string |
| `ResultDisplay.Explanation` | healthcareai-main/frontend/src/components/ResultDisplay.jsx:86-88 | the consult message iff the prediction is 1, the low-risk message otherwise |
| `ResultDisplay.GaugePercent` | healthcareai-main/frontend/src/components/ResultDisplay.jsx:34 | the gauge is the probability as a percentage, within 0..100 for a probability in 0..1 |
| `ResultDisplay.Insert` | healthcareai-main/frontend/src/components/ResultDisplay.jsx:45 | inserting keeps the elements (multiset), adds only the new entry, and keeps a descending list descending |
| `ResultDisplay.RankDescending` | healthcareai-main/frontend/src/components/ResultDisplay.jsx:44-45 | the ranking is a permutation of the entries and is ordered non-increasing by weight |
| `ResultDisplay.InsertKeepsTieOrder` | healthcareai-main/frontend/src/components/ResultDisplay.jsx:45 | the new entry goes ahead of every existing entry of equal weight |
| `ResultDisplay.RankingIsStable` | healthcareai-main/frontend/src/components/ResultDisplay.jsx:45 | entries of equal weight keep the order `Object.entries` returned them in |
| `ResultDisplay.SortedFeatures` | healthcareai-main/frontend/src/components/ResultDisplay.jsx:44-46 | an absent dictionary yields the empty list; otherwise a descending permutation of its entries |
| `ResultDisplay.WidthPercent` | healthcareai-main/frontend/src/components/ResultDisplay.jsx:107 | width times the top weight is the weight times 100; a zero top weight gives no finite width |
| `ResultDisplay.BarWidths` | healthcareai-main/frontend/src/components/ResultDisplay.jsx:105-107 | one width per ranked entry, each relative to the first entry's weight |
| `ResultDisplay.TopBarIsFull` | healthcareai-main/frontend/src/components/ResultDisplay.jsx:106-107 | with a non-zero top weight the first bar is exactly 100 |
| `ResultDisplay.BarsFitTrack` | healthcareai-main/frontend/src/components/ResultDisplay.jsx:105-107 | with a positive top weight every width is at most 100, and a width is negative iff its weight is |
| `ResultDisplay.NegativeTopOverflowsTrack` | healthcareai-main/frontend/src/components/ResultDisplay.jsx:105-107 | when the top weight is negative every width is at least 100 |
| `ResultDisplay.RankingExample` | healthcareai-main/frontend/src/components/ResultDisplay.jsx:44-45 | weights Age 0.1, Glucose 0.4, BMI 0.3 rank Glucose, BMI, Age with widths 100, 75, 25 |
| `ResultDisplay.Render` | healthcareai-main/frontend/src/components/ResultDisplay.jsx:32-92 | the screen's theme, gauge, heading and explanation come from the payload; the factors section is hidden iff there are no weights, and otherwise shows one bar per ranked entry |
| `Backend.InputRow` | backend/main.py:54-63 | the row has eight values, and position i holds the attribute named by the i-th training column |
| `Backend.FeaturesAreDistinct` | backend/main.py:54-57 | the eight column names are distinct |
| `Backend.Zip` | backend/main.py:72 | pairs names with values positionally and stops at the shorter list |
| `Backend.FeatureWeights` | backend/main.py:72 | a dictionary with distinct keys pairing the first min(8, n) columns with the weights in order |
| `Backend.ImportanceMap` | backend/main.py:70-74 | `feature_importances_` is preferred to `coef_[0]`; with neither the map is empty; the keys are distinct training columns, at most eight |
| `Backend.RiskLevel` | backend/main.py:77 | "High Risk" iff probability >= 0.5, "Low Risk" iff below; never "High", "Medium" or "Low" |
| `Backend.PredictDiabetes` | backend/main.py:48-84 | no model gives status 500 and no result; otherwise the four keys hold the classifier's answers on the row, the threshold label and the importance map |
| `Wire.RequestKeysAreBackendFeatures` | healthcareai-main/frontend/src/components/PredictionForm.jsx:54-63 | the request body's keys are the backend's training columns in the same order |
| `Wire.BackendResponseThemeIsGreen` | backend/main.py:77 | every successful backend response is shown with the green check-mark theme |
| `Wire.HighProbabilityShownAsLowRisk` | backend/main.py:77 | probability 0.9 is labelled "High Risk" but shown green under the heading "High Risk Risk Level" |
| `Wire.ThemeForBackendLabel` | healthcareai-main/frontend/src/components/ResultDisplay.jsx:37-41 | corrected selection: "High"/"High Risk" give red, "Medium"/"Medium Risk" amber, anything else green |
| `Wire.CorrectedThemeTracksProbability` | backend/main.py:77 | with the corrected selection the theme is red iff probability >= 0.5 and green iff below |
| `Wire.BackendFactorsChart` | backend/main.py:70-74 | the factors section appears iff the model exposes a non-empty weight vector; at most eight bars, each named after a training column |

## Left out

- The 800 ms `setTimeout` before `onPredict` (PredictionForm.jsx:95). `FormState.Complete` hands the payload over at once; the delay is timing only.
- Floating point. Numbers are Dafny reals, so there is no `-0`, no `Infinity` and no rounding. A division by a zero top weight, which gives NaN or an infinity in JavaScript, is `None`. NaN weights in the sort comparator are not modelled.
- The text parsing done by `parseFloat`. The caller supplies what it made of the input, as `Option<real>`.
- `toFixed(1)` formatting, the SVG gauge geometry with pi, framer-motion animations, CSS (including how a negative bar width is drawn), and the footer's current year (a clock).
- Browser constraint validation of the inputs (`required`, `min`, `max`, `step`), which can block a submission before `handleSubmit` runs.
- The backend's request validation (pydantic type checks and coercion, 422 responses). The model starts from a validated `PatientData`.
- `Backend.ImportanceMap`: takes `coef_[0]` as a given vector, so it does not model the `IndexError` of a `coef_` with no rows.
- `model.predict`, `predict_proba`, `pickle.load`, FastAPI, CORS and uvicorn are foreign code. The classifier's answers on the row are fields of `Backend.Model`.
- The `/` status endpoint (`read_root`) and the `__main__` server start: fixed responses and process setup.
- Response-shape validation. The frontend performs none; a payload is a typed `PredictionResult`, JSON `null`, or unparsable. Other malformed shapes are not modelled.
- The component files imported by frontend/src/App.jsx:5-6 (`frontend/src/components/PredictionForm` and `ResultDisplay`) are not part of this model. The versions under `healthcareai-main/frontend/src/components/` are modelled in their place.
- `LandingPage.jsx` (presentation only), `healthcareai-main/frontend/src/api.js` and `DiabetesForm.jsx` (a second fetch wrapper and form), and the training scripts `Diabetes_project/diabetes_model.py` and `healthcareai-main/backend/train.py` (CSV and file I/O, sklearn fitting, float metrics).
- `console.error` logging in the submit handler (I/O).

## Findings

| source | as written | input that shows it | evidently intended | confidence | as-written member | corrected member |
|---|---|---|---|---|---|---|
| backend/main.py:77 against healthcareai-main/frontend/src/components/ResultDisplay.jsx:37-41 | the backend labels risk "High Risk"/"Low Risk", but the result screen only recognises exactly "High" and "Medium", so every backend response gets the green check-mark theme, under the heading "High Risk Risk Level" | a classifier returning probability 0.9 | the red alarm theme exactly when the backend reports high risk (probability >= 0.5) | medium; not executed | `Wire.HighProbabilityShownAsLowRisk` | `Wire.CorrectedThemeTracksProbability` |
