/** The client and the service together: the HTTP library's mapping from
    a response status to a resolved or rejected call, and what a submit of
    the eight inputs ends in for each answer the service can give. */
module Integration {
  import opened Wire
  import opened Server
  import opened ClientView
  import opened Client

  /** The HTTP library's default status check: a 2xx response resolves the
      call, any other rejects it with the response attached. */
  function Transport(r: HttpResponse): (o: Outcome)
    ensures o.Ok? <==> 200 <= r.status < 300
    ensures o.Ok? ==> o.data == r.body
    ensures !o.Ok? ==> o == ErrWithResponse(r.body)
  {
    if 200 <= r.status < 300 then Ok(r.body) else ErrWithResponse(r.body)
  }

  /** The service's answer to the request document the client builds. */
  function Answer(model: Option<Classifier>, payload: seq<Num>): HttpResponse
  {
    Predict(model, Success(RequestDocument(payload)))
  }

  /** The features list the service receives from the client. */
  function Received(payload: seq<Num>): Json
  {
    RequestDocument(payload).fields["features"]
  }

  /** The client's eight slots always pass the service's length check,
      whatever the user typed: the 400 answer cannot reach this client. */
  lemma ClientPayloadAccepted(features: seq<string>, parse: string -> Num, model: Option<Classifier>)
    requires |features| == FIELD_COUNT
    ensures GetFeatures(RequestDocument(Payload(features, parse))) == Success(Received(Payload(features, parse)))
    ensures CheckFeatures(Received(Payload(features, parse))) == Accept
    ensures Answer(model, Payload(features, parse)).status != 400
  {
  }

  /** A submit against a loaded model whose calls succeed ends in the
      Success phase showing the model's label and percentage. */
  lemma SubmitSucceeds(features: seq<string>, parse: string -> Num, c: Classifier, percentage: real, prediction: int)
    requires |features| == FIELD_COUNT
    requires c.percent(Received(Payload(features, parse))) == Success(percentage)
    requires c.classify(Received(Payload(features, parse))) == Success(prediction)
    ensures Settled(Transport(Answer(Some(c), Payload(features, parse))))
         == Snapshot(false, None, PredictionBody(prediction, percentage))
    ensures PhaseOf(Settled(Transport(Answer(Some(c), Payload(features, parse)))))
         == Succeeded(PredictionBody(prediction, percentage))
    ensures Project(Settled(Transport(Answer(Some(c), Payload(features, parse))))).panel
         == Some(Panel(if prediction == 1 then HighRisk else LowRisk, Some(percentage)))
  {
  }

  /** With no model loaded every submit ends showing the service's
      missing-model text as a server error. */
  lemma SubmitWithoutModel(payload: seq<Num>)
    ensures Settled(Transport(Answer(None, payload)))
         == Snapshot(false, Some("Server Error: " + MODEL_NOT_LOADED), NullBody)
  {
  }

  /** When either model call raises, the user sees a server error carrying
      the service's prefixed exception text. */
  lemma SubmitWhenModelRaises(features: seq<string>, parse: string -> Num, c: Classifier, e: string)
    requires |features| == FIELD_COUNT
    requires || c.percent(Received(Payload(features, parse))) == Failure(e)
             || (c.percent(Received(Payload(features, parse))).Success?
                 && c.classify(Received(Payload(features, parse))) == Failure(e))
    ensures Settled(Transport(Answer(Some(c), Payload(features, parse))))
         == Snapshot(false, Some("Server Error: " + (UNEXPECTED_PREFIX + e)), NullBody)
  {
  }
}
