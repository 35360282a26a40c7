# Diabetes risk predictor: submission lifecycle and `/predict` guard chain

This project models the two halves of a small diabetes-risk web app:

- the React page (`client/src/App.jsx`), which keeps eight raw input
  strings, posts them to the prediction service, and shows one of four things:
  a spinner, an error line, a High/Low Risk panel, or a placeholder;
- the Flask handler `predict()` (`ml-model/app.py`), which checks that a model
  is loaded and that exactly eight features arrived, then returns the model's
  label and percentage, or an error with status 400 or 500.

Modules:

- `Wire` (wire.dfy): the values that cross the network. These are the numbers
  `Number()` produces, the JSON the service parses, and the response bodies the
  client reads. It also has `RequestDocument`, the JSON the client posts.
- `Server` (server.dfy): `FEATURE_NAMES`, the 400 message built from them, and
  the guard chain `Predict`. The chain checks the model, then `get_json`, then
  `data.get`, then the falsy/length check, then the two model calls. Each caught
  exception becomes a 500 with the fixed prefix. The loaded model is an
  `Option<Classifier>`, and the classifier is two functions that return a value
  or the text of what they raised.
- `ClientView` (client_view.dfy): the JSX conditionals as a pure function
  `Project` from `(loading, error, result)` to what is on screen. It uses
  JavaScript truthiness for `result &&` and `error &&`. The module also has the
  Idle/Loading/Succeeded/Failed phase of a state, and a reference view for
  each phase.
- `Client` (client.dfy): the `App` class with `features: array<string>`,
  `result`, `error` and `loading`. `HandleChange` copies the array and replaces
  one slot. `handleSubmit` is split at its `await` into `BeginSubmit` and
  `Settle`, and `HandleSubmit` runs both. `PressPredict` is the browser's
  dispatch through the submit button, which is disabled while loading.
  `FailureMessage` classifies errors in the handler's priority order.
- `Integration` (integration.dfy): the HTTP library's status check, which turns
  2xx into a resolved call and anything else into a rejection that carries the
  response. It also holds what a submit of the eight inputs ends in for each
  answer the service can give.

The model follows the code where it behaves unexpectedly:

- A server error's message is `"Server Error: "` followed by the service's
  text, not the service's text alone.
- A rejected call whose response body is JSON `null` throws a `TypeError` inside
  the `catch` block when it reads `.error`. `finally` still clears `loading`, but
  neither `error` nor `result` is set, so the page falls back to the placeholder.
  `Settled` and `SettledState` model this as written.
- Non-empty inputs are required only by the browser's `required` attribute. The
  handler does not check for them (see Left out).

## Model

| member | source | states |
|---|---|---|
| `Client.App.constructor` | client/src/App.jsx:59-62 | on mount there are exactly eight empty input strings, no result, no error, and loading is false |
| `Client.App.HandleChange` | client/src/App.jsx:77-81 | installs a fresh array of the same length (8) with slot `index` set to `value` and every other slot unchanged; the old array is not written; result, error and loading are untouched |
| `Client.App.BeginSubmit` | client/src/App.jsx:84-94 | before the request goes out, error and result are cleared and loading is set; the one request issued is the element-wise conversion of the current inputs |
| `Client.App.Settle` | client/src/App.jsx:95-107 | after the call ends the state is `Settled(outcome)`: the data on success, the classified message on failure, loading cleared either way, and the page invariant preserved |
| `Client.App.HandleSubmit` | client/src/App.jsx:84-108 | a whole submit issues exactly the payload of the inputs and ends in `Settled` of the answer to that payload, with the inputs unchanged |
| `Client.App.PressPredict` | client/src/App.jsx:141 | while a request is in flight the disabled button dispatches nothing and nothing changes; otherwise a submit starts and issues the inputs' payload |
| `Client.Payload` | client/src/App.jsx:93 | the payload has the inputs' length and each element is the conversion of the input at the same position |
| `Client.FailureMessage` | client/src/App.jsx:98-104 | a rejection with a response gives a non-empty message starting "Server Error: ", one with only a request the fixed network text, one with neither the fixed client text; only a `null` response body gives no message |
| `Client.Settled` | client/src/App.jsx:95-107 | after the call ends loading is false; success keeps the data with no error; failure keeps no result and holds the classified message |
| `Client.FailureKindRecoverable` | client/src/App.jsx:98-104 | the message of a failed call identifies its branch: the "Server Error: " prefix if a response is present, otherwise the network text if a request is present, otherwise the client text; no two branches share a message |
| `Client.ServerErrorText` | client/src/App.jsx:99 | a non-empty `error` field is shown after "Server Error: "; an absent or empty one gives the "An issue occurred" fallback; only a `null` body gives no message |
| `Client.SettledState` | client/src/App.jsx:86-107 | after a submit, loading is false and result and error are never both set; success keeps the data with no error; failure keeps no result; the resulting phase is Succeeded, Failed or (for a falsy body or a `null` error body) Idle |
| `ClientView.Project` | client/src/App.jsx:141-196 | the button is disabled exactly while loading; the result panel shows exactly when the result is truthy and not loading; the placeholder shows exactly when result, loading and error are all falsy |
| `ClientView.PlaceholderIffNothingElse` | client/src/App.jsx:151-196 | in any state, the placeholder appears if and only if no spinner, error line or result panel does |
| `ClientView.PanelOf` | client/src/App.jsx:162-174 | the panel's bucket is High Risk exactly when the body is a prediction with label 1; it carries `probability_percent` exactly when the body is a prediction |
| `ClientView.RiskBucket` | client/src/App.jsx:173 | the heading reads "High Risk" exactly when the body's prediction is 1, and "Low Risk" for every other body |
| `ClientView.ProjectionFollowsPhase` | client/src/App.jsx:151-196 | in every reachable state the view is the one its phase prescribes, and exactly one of spinner, error, result panel and placeholder is shown |
| `Server.FeatureNamesOrder` | ml-model/app.py:22-31 | there are eight distinct feature names, from Pregnancies first to Age last |
| `Server.JoinedFeatureNames` | ml-model/app.py:53 | joining the names with ", " lists each of the eight once, in order |
| `Server.NatToStringRoundTrip` | ml-model/app.py:53 | the decimal rendering used for the feature count reads back as the number rendered |
| `Server.ValidationMessage` | ml-model/app.py:53 | the 400 message is "You must provide exactly 8 features: " followed by the eight names joined with ", " |
| `Server.PyFalsy` | ml-model/app.py:52 | `not features` holds for `None`, and for a string, list or object exactly when its length is 0 |
| `Server.GetFeatures` | ml-model/app.py:48-49 | `data.get("features")` succeeds exactly on a JSON object, giving the value under `features` or `None` when the key is missing; on anything else it raises the `AttributeError` text |
| `Server.CheckFeatures` | ml-model/app.py:52 | a features value is accepted exactly when it is truthy and has length 8 |
| `Server.PyLen` | ml-model/app.py:52 | `len` succeeds exactly on strings, lists and objects and returns their character, item or key count; on numbers and booleans it raises the `TypeError` text naming the type |
| `Server.LenRaises` | ml-model/app.py:52 | a truthy number or boolean as `features` makes the guard raise Python's `TypeError` text |
| `Server.Predict` | ml-model/app.py:39-78 | the handler answers 200, 400 or 500, and 200 exactly when the body is a prediction |
| `Server.ModelCheckedFirst` | ml-model/app.py:44-45 | without a model, every request gets the same 500 with the model-not-loaded text, so the input is never inspected |
| `Server.RejectsWrongFeatureCount` | ml-model/app.py:52-54 | a missing, empty or wrong-length `features` gets a 400 with the validation message |
| `Server.BadRequestMeansWrongFeatureCount` | ml-model/app.py:47-54 | every 400 carries the validation message and comes from a JSON object whose `features` is falsy or has a length other than 8 |
| `Server.RejectionIgnoresModel` | ml-model/app.py:52-68 | when validation does not accept the input, the answer is the same for any model and is never a 200, so no prediction is made on bad input |
| `Server.AcceptedPrediction` | ml-model/app.py:60-74 | any request whose `features` passes validation, with successful model calls, gets a 200 with the model's integer label and its percentage |
| `Server.AcceptsEightItems` | ml-model/app.py:49-52 | a JSON object whose `features` is a list of eight items passes validation |
| `Server.ExceptionBecomes500` | ml-model/app.py:47-78 | an exception from `get_json`, from `data.get`, from `len`, or from either model call yields a 500 whose text is "An unexpected error occurred: " followed by `str(e)` |
| `Server.ServerErrorShape` | ml-model/app.py:44-78 | every 500 is an error body holding either the model-not-loaded text or a message that starts with "An unexpected error occurred: " |
| `Wire.Encode` | client/src/App.jsx:92-93 | when the payload is serialised, NaN and the infinities become `null`; integral numbers below 1e21 in magnitude arrive as Python ints, and every other finite number as a float of the same value |
| `Wire.RequestDocument` | client/src/App.jsx:92-94 | the posted document has a `features` array with the payload's length, in the same order |
| `Integration.Transport` | client/src/App.jsx:92-98 | a call resolves with the body exactly on a 2xx status; any other status rejects it with the response attached |
| `Integration.ClientPayloadAccepted` | ml-model/app.py:52-54 | the client's eight slots always pass the service's length check, so the client never receives the 400 |
| `Integration.SubmitSucceeds` | client/src/App.jsx:92-95 | against a loaded model whose calls succeed, a submit ends in Succeeded with the model's label and percentage, and shows High Risk exactly for label 1 |
| `Integration.SubmitWithoutModel` | ml-model/app.py:44-45 | without a model, every submit ends showing "Server Error: " followed by the model-not-loaded text |
| `Integration.SubmitWhenModelRaises` | ml-model/app.py:64-78 | when the probability call raises, or the label call raises after it succeeded, the user sees "Server Error: " followed by the service's prefixed exception text |

## Left out

- HTTP transport: the request to `127.0.0.1:5000`, Flask routing, CORS and the
  `/` route are not modelled. The POST is the `send` parameter or an `Outcome`
  value. A rejected call records only whether it carries a response, a request,
  or neither.
- `Number(text)` parsing is the `parse` parameter. Python's
  `round(probability * 100, 2)` and the model calls together form
  `Classifier.percent`. `toFixed(2)` is not modelled, so the panel carries the
  raw `probability_percent`. All of these are floating point.
- The ML model: `joblib.load`, the pandas DataFrame and
  `predict_proba`/`predict` are foreign calls. Each is a function that
  returns a value or the text of the exception it raised. What the model
  computes is not modelled.
- `ml-model/train.py` is only CSV loading and scikit-learn fitting, so it is
  not part of this model.
- Presentation is not modelled: `Icon`, `HealthTips`, the header, footer, labels,
  placeholders, CSS classes and emoji.
- The inputs' `required` attribute is browser behaviour, and the handler does
  not check it. The model lets a submit go out with empty slots.
- Rendering a truthy result that has no `probability_percent` throws in
  `toFixed`. The model does not follow this. `Panel.probabilityPercent` is
  `None` for such a body.
- A JSON `error` field that is not a string cannot be represented, so its
  JavaScript string conversion is not modelled. `Body` holds either a string
  `error`, a prediction, a plain-text body, or `null`.
- `Client.App.HandleChange`: an index beyond slot 7 would grow the JavaScript
  array. The model requires a valid index, because the only callers are the
  eight inputs.
- Scheduling is not modelled: React's asynchronous re-rendering, and a request
  that never settles and leaves the page loading forever (a liveness
  question). Events are the method calls `HandleChange`, `PressPredict`
  and `Settle`, in any order their preconditions allow.
- `get_json()` failures, such as a wrong content type or malformed JSON, are a
  `Failure` carrying the exception's text. Werkzeug's wording is not modelled.
