/** Values that cross the boundary between the browser client and the Flask
    prediction service: the numbers the client sends, the JSON the service
    parses, and the response bodies the client reads back. */
module Wire {

  datatype Option<+T> = None | Some(value: T)

  datatype Result<+T> = Success(value: T) | Failure(error: string)

  /** A JavaScript number produced by `Number(text)`. NaN and the infinities
      all serialise to JSON `null`, so they are one case here. */
  datatype Num = Finite(value: real) | NonFinite

  /** A JSON document as the Python side sees it after `request.get_json()`:
      integral literals become `int`, the others `float`. */
  datatype Json =
    | JNull
    | JBool(b: bool)
    | JInt(i: int)
    | JFloat(f: real)
    | JStr(s: string)
    | JArray(items: seq<Json>)
    | JObject(fields: map<string, Json>)

  /** A response body as the client's HTTP library hands it over
      (`res.data` / `err.response.data`). */
  datatype Body =
    | NullBody                                               // JSON `null`
    | TextBody(text: string)                                 // a non-JSON body, e.g. an HTML error page
    | ErrorBody(error: string)                               // `{"error": ...}`
    | PredictionBody(prediction: int, probabilityPercent: real)  // `{"prediction": ..., "probability_percent": ...}`

  datatype HttpResponse = HttpResponse(status: nat, body: Body)

  /** Magnitude from which JavaScript writes a number in exponent form
      ("1e+21"), which Python then parses as a float. */
  const EXPONENT_FORM: real := 1000000000000000000000.0

  /** How `JSON.stringify` writes one number of the client's payload, as
      Python's `json` reads it back: integral numbers written without an
      exponent become `int`, all other finite numbers `float`. */
  function Encode(n: Num): (j: Json)
    ensures n.NonFinite? <==> j == JNull
    ensures n.Finite? ==>
      (j.JInt? <==> n.value == n.value.Floor as real && -EXPONENT_FORM < n.value < EXPONENT_FORM)
    ensures j.JInt? ==> j.i as real == n.value
    ensures j.JFloat? ==> j.f == n.value
  {
    match n
    case NonFinite => JNull
    case Finite(x) =>
      if x == x.Floor as real && -EXPONENT_FORM < x < EXPONENT_FORM then JInt(x.Floor) else JFloat(x)
  }

  /** The JSON request document `{ features: [...] }` built from a payload. */
  function RequestDocument(payload: seq<Num>): (doc: Json)
    ensures doc.JObject? && "features" in doc.fields
    ensures doc.fields["features"].JArray? && |doc.fields["features"].items| == |payload|
    ensures forall k :: 0 <= k < |payload| ==> doc.fields["features"].items[k] == Encode(payload[k])
  {
    JObject(map["features" := JArray(seq(|payload|, k requires 0 <= k < |payload| => Encode(payload[k])))])
  }
}
