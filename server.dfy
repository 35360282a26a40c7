/** The `/predict` handler of the Flask service: a chain of guards that
    turns the loaded model (if any) and the parsed request into an HTTP
    status and a JSON body. The scikit-learn model is a parameter. */
module Server {
  import opened Wire

  /** The model's input columns, in the order the model was trained on. */
  const FEATURE_NAMES: seq<string> :=
    ["Pregnancies", "Glucose", "BloodPressure", "SkinThickness",
     "Insulin", "BMI", "DiabetesPedigreeFunction", "Age"]

  const MODEL_NOT_LOADED := "Model is not loaded. Cannot make predictions."
  const UNEXPECTED_PREFIX := "An unexpected error occurred: "

  /** The loaded model, seen only through the two calls the handler makes.
      `percent` stands for building the one-row DataFrame and computing
      `round(predict_proba(df)[0][1] * 100, 2)`; `classify` for
      `int(predict(df)[0])`. A `Failure` carries `str(e)` of what they raise. */
  datatype Classifier = Classifier(percent: Json -> Result<real>, classify: Json -> Result<int>)

  /** Decimal rendering of a natural number, as Python's `str` gives it. */
  function NatToString(n: nat): (s: string)
    ensures |s| >= 1
    ensures forall k :: 0 <= k < |s| ==> '0' <= s[k] <= '9'
    decreases n
  {
    var digit := ['0' + (n % 10) as char];
    if n < 10 then digit else NatToString(n / 10) + digit
  }

  /** The number a string of decimal digits denotes. */
  function DecimalValue(s: string): nat
    requires forall k :: 0 <= k < |s| ==> '0' <= s[k] <= '9'
  {
    if s == [] then 0 else 10 * DecimalValue(s[..|s| - 1]) + (s[|s| - 1] - '0') as nat
  }

  /** Reading back the decimal rendering gives the number rendered. */
  lemma {:induction false} NatToStringRoundTrip(n: nat)
    ensures DecimalValue(NatToString(n)) == n
    decreases n
  {
    var digit := ['0' + (n % 10) as char];
    if n >= 10 {
      var front := NatToString(n / 10);
      assert (front + digit)[..|front|] == front;
      NatToStringRoundTrip(n / 10);
    }
  }

  /** `sep.join(parts)` */
  function Join(parts: seq<string>, sep: string): (s: string)
    ensures parts == [] ==> s == ""
    ensures |parts| == 1 ==> s == parts[0]
  {
    if parts == [] then ""
    else if |parts| == 1 then parts[0]
    else parts[0] + sep + Join(parts[1..], sep)
  }

  /** The 400 message, built from the feature names. */
  function ValidationMessage(): (message: string)
    ensures message ==
      "You must provide exactly 8 features: " +
      ("Pregnancies" + ", " + "Glucose" + ", " + "BloodPressure" + ", " + "SkinThickness" + ", " +
       "Insulin" + ", " + "BMI" + ", " + "DiabetesPedigreeFunction" + ", " + "Age")
  {
    ValidationMessageSpelledOut();
    "You must provide exactly " + NatToString(|FEATURE_NAMES|) + " features: " + Join(FEATURE_NAMES, ", ")
  }

  /** Python truthiness of a parsed JSON value (`not features`). */
  predicate PyFalsy(v: Json): (falsy: bool)
    ensures PyLen(v).Success? ==> (falsy <==> PyLen(v).value == 0)
    ensures v.JNull? ==> falsy
  {
    match v
    case JNull => true
    case JBool(b) => !b
    case JInt(i) => i == 0
    case JFloat(f) => f == 0.0
    case JStr(s) => s == ""
    case JArray(items) => items == []
    case JObject(fields) => fields == map[]
  }

  /** Python's type name of a parsed JSON value, as exception messages show it. */
  function PyTypeName(v: Json): string
  {
    match v
    case JNull => "NoneType"
    case JBool(_) => "bool"
    case JInt(_) => "int"
    case JFloat(_) => "float"
    case JStr(_) => "str"
    case JArray(_) => "list"
    case JObject(_) => "dict"
  }

  /** `len(v)`, or the message of the `TypeError` it raises. */
  function PyLen(v: Json): (r: Result<nat>)
    ensures r.Success? <==> (v.JStr? || v.JArray? || v.JObject?)
    ensures v.JStr? ==> r == Success(|v.s|)
    ensures v.JArray? ==> r == Success(|v.items|)
    ensures v.JObject? ==> r == Success(|v.fields.Keys|)
    ensures r.Failure? ==> r.error == "object of type '" + PyTypeName(v) + "' has no len()"
  {
    match v
    case JStr(s) => Success(|s|)
    case JArray(items) => Success(|items|)
    case JObject(fields) => Success(|fields.Keys|)
    case _ => Failure("object of type '" + PyTypeName(v) + "' has no len()")
  }

  /** `data.get("features")`: a missing key reads as `None`. */
  function GetFeatures(data: Json): (r: Result<Json>)
    ensures r.Success? <==> data.JObject?
    ensures data.JObject? && "features" in data.fields ==> r.value == data.fields["features"]
    ensures data.JObject? && "features" !in data.fields ==> r.value == JNull && PyFalsy(r.value)
    ensures r.Failure? ==> r.error == "'" + PyTypeName(data) + "' object has no attribute 'get'"
  {
    match data
    case JObject(fields) => Success(if "features" in fields then fields["features"] else JNull)
    case _ => Failure("'" + PyTypeName(data) + "' object has no attribute 'get'")
  }

  /** Outcome of the input-validation guard on the `features` value. */
  datatype Verdict = Accept | Reject | Raise(message: string)

  function CheckFeatures(features: Json): (v: Verdict)
    ensures v == Accept <==> !PyFalsy(features) && PyLen(features) == Success(|FEATURE_NAMES|)
  {
    if PyFalsy(features) then Reject
    else match PyLen(features)
      case Failure(e) => Raise(e)
      case Success(n) => if n != |FEATURE_NAMES| then Reject else Accept
  }

  function Unexpected(message: string): HttpResponse
  {
    HttpResponse(500, ErrorBody(UNEXPECTED_PREFIX + message))
  }

  /** The `/predict` handler. `request` is what `request.get_json()` returned,
      or the message of what it raised. */
  function Predict(model: Option<Classifier>, request: Result<Json>): (r: HttpResponse)
    ensures r.status in {200, 400, 500}
    ensures r.status == 200 <==> r.body.PredictionBody?
  {
    if model.None? then HttpResponse(500, ErrorBody(MODEL_NOT_LOADED))
    else match request
      case Failure(e) => Unexpected(e)
      case Success(data) =>
        match GetFeatures(data)
        case Failure(e) => Unexpected(e)
        case Success(features) =>
          match CheckFeatures(features)
          case Raise(e) => Unexpected(e)
          case Reject => HttpResponse(400, ErrorBody(ValidationMessage()))
          case Accept =>
            match model.value.percent(features)
            case Failure(e) => Unexpected(e)
            case Success(percentage) =>
              match model.value.classify(features)
              case Failure(e) => Unexpected(e)
              case Success(prediction) => HttpResponse(200, PredictionBody(prediction, percentage))
  }

  /** The feature-name constant: eight columns, in the training order. */
  lemma FeatureNamesOrder()
    ensures |FEATURE_NAMES| == 8
    ensures FEATURE_NAMES[0] == "Pregnancies" && FEATURE_NAMES[7] == "Age"
    ensures forall i, j :: 0 <= i < j < |FEATURE_NAMES| ==> FEATURE_NAMES[i] != FEATURE_NAMES[j]
  {
  }

  /** The joined feature names, spelled out: each name once, in order,
      separated by ", ". */
  lemma JoinedFeatureNames()
    ensures Join(FEATURE_NAMES, ", ") ==
      "Pregnancies" + ", " + "Glucose" + ", " + "BloodPressure" + ", " + "SkinThickness" + ", " +
      "Insulin" + ", " + "BMI" + ", " + "DiabetesPedigreeFunction" + ", " + "Age"
  {
  }

  /** The f-string of the 400 message, with the count and the names filled in. */
  lemma ValidationMessageSpelledOut()
    ensures "You must provide exactly " + NatToString(|FEATURE_NAMES|) + " features: " + Join(FEATURE_NAMES, ", ") ==
      "You must provide exactly 8 features: " +
      ("Pregnancies" + ", " + "Glucose" + ", " + "BloodPressure" + ", " + "SkinThickness" + ", " +
       "Insulin" + ", " + "BMI" + ", " + "DiabetesPedigreeFunction" + ", " + "Age")
  {
    var count := NatToString(|FEATURE_NAMES|);
    assert count == "8";
    assert "You must provide exactly " + count + " features: " == "You must provide exactly 8 features: ";
    JoinedFeatureNames();
  }

  /** With no model loaded the answer is the same 500 whatever was sent:
      the request is not inspected at all. */
  lemma ModelCheckedFirst(request: Result<Json>, other: Result<Json>)
    ensures Predict(None, request) == Predict(None, other)
    ensures Predict(None, request) == HttpResponse(500, ErrorBody(MODEL_NOT_LOADED))
  {
  }

  /** A loaded model and a JSON object whose `features` is missing, empty or
      of a length other than eight get a 400 with the validation message. */
  lemma RejectsWrongFeatureCount(c: Classifier, fields: map<string, Json>)
    requires "features" !in fields
          || PyFalsy(fields["features"])
          || (PyLen(fields["features"]).Success? && PyLen(fields["features"]).value != 8)
    ensures Predict(Some(c), Success(JObject(fields))) == HttpResponse(400, ErrorBody(ValidationMessage()))
  {
  }

  /** A 400 is only ever the validation answer, and it comes only from a
      request that is a JSON object with a missing, empty or wrong-length
      `features`. */
  lemma BadRequestMeansWrongFeatureCount(model: Option<Classifier>, request: Result<Json>)
    requires Predict(model, request).status == 400
    ensures Predict(model, request).body == ErrorBody(ValidationMessage())
    ensures model.Some? && request.Success? && request.value.JObject?
    ensures var features := GetFeatures(request.value).value;
            PyFalsy(features) || (PyLen(features).Success? && PyLen(features).value != |FEATURE_NAMES|)
  {
  }

  /** Validation runs before the model: when the guard does not accept the
      features, the answer does not depend on the model at all. */
  lemma RejectionIgnoresModel(c: Classifier, d: Classifier, data: Json)
    requires GetFeatures(data).Failure? || CheckFeatures(GetFeatures(data).value) != Accept
    ensures Predict(Some(c), Success(data)) == Predict(Some(d), Success(data))
    ensures Predict(Some(c), Success(data)).status != 200
  {
  }

  /** Any request whose `features` passes validation, and whose model calls
      succeed, gets a 200 carrying the model's label and percentage. */
  lemma AcceptedPrediction(c: Classifier, data: Json, features: Json, percentage: real, prediction: int)
    requires GetFeatures(data) == Success(features) && CheckFeatures(features) == Accept
    requires c.percent(features) == Success(percentage)
    requires c.classify(features) == Success(prediction)
    ensures Predict(Some(c), Success(data)) == HttpResponse(200, PredictionBody(prediction, percentage))
  {
  }

  /** The eight-element list is one such request. */
  lemma AcceptsEightItems(items: seq<Json>)
    requires |items| == |FEATURE_NAMES|
    ensures GetFeatures(JObject(map["features" := JArray(items)])) == Success(JArray(items))
    ensures CheckFeatures(JArray(items)) == Accept
  {
  }

  /** Each exception raised inside the `try` (by `get_json`, by `data.get`
      on a non-object, by `len` on a truthy number or boolean, or by either
      model call) becomes a 500 whose text is the prefix and `str(e)`. */
  lemma ExceptionBecomes500(c: Classifier, request: Result<Json>, e: string)
    requires
      || request == Failure(e)
      || (request.Success? && GetFeatures(request.value) == Failure(e))
      || (request.Success? && GetFeatures(request.value).Success?
          && CheckFeatures(GetFeatures(request.value).value) == Raise(e))
      || (request.Success? && GetFeatures(request.value).Success?
          && CheckFeatures(GetFeatures(request.value).value) == Accept
          && c.percent(GetFeatures(request.value).value) == Failure(e))
      || (request.Success? && GetFeatures(request.value).Success?
          && CheckFeatures(GetFeatures(request.value).value) == Accept
          && c.percent(GetFeatures(request.value).value).Success?
          && c.classify(GetFeatures(request.value).value) == Failure(e))
    ensures Predict(Some(c), request) == HttpResponse(500, ErrorBody(UNEXPECTED_PREFIX + e))
  {
  }

  /** `len` raises exactly on truthy numbers and booleans, with Python's
      `TypeError` text. */
  lemma LenRaises(v: Json)
    requires v.JBool? || v.JInt? || v.JFloat?
    requires !PyFalsy(v)
    ensures CheckFeatures(v) == Raise("object of type '" + PyTypeName(v) + "' has no len()")
  {
  }

  /** Every 500 is either the missing-model answer or a caught exception,
      reported with the fixed prefix. */
  lemma ServerErrorShape(model: Option<Classifier>, request: Result<Json>)
    requires Predict(model, request).status == 500
    ensures Predict(model, request).body.ErrorBody?
    ensures var msg := Predict(model, request).body.error;
            (model.None? && msg == MODEL_NOT_LOADED)
            || (model.Some? && |msg| >= |UNEXPECTED_PREFIX| && msg[..|UNEXPECTED_PREFIX|] == UNEXPECTED_PREFIX)
  {
  }
}
