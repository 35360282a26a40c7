/** The prediction page's component state and its two event handlers: the
    eight-slot input form and the submission lifecycle around one POST to
    the prediction service. The HTTP call is an abstract outcome. */
module Client {
  import opened Wire
  import opened ClientView

  /** Number of input slots (`Array(8)`). */
  const FIELD_COUNT := 8

  const SERVER_ERROR_PREFIX := "Server Error: "
  const SERVER_ERROR_FALLBACK := "An issue occurred"
  const NETWORK_ERROR := "Network Error: " + "No response from the server. Is it running?"
  const CLIENT_ERROR := "Client Error: " + "Could not send the request. Check your network."

  /** How the awaited POST ends, as the HTTP library reports it: resolved
      with `res.data`, or rejected with an error that carries a response, only
      a request, or neither. */
  datatype Outcome =
    | Ok(data: Body)
    | ErrWithResponse(body: Body)
    | ErrWithRequestOnly
    | ErrNoRequest

  /** The request payload `features.map(Number)`; `parse` is `Number`. */
  function Payload(features: seq<string>, parse: string -> Num): (request: seq<Num>)
    ensures |request| == |features|
    ensures forall k :: 0 <= k < |request| ==> request[k] == parse(features[k])
  {
    seq(|features|, k requires 0 <= k < |features| => parse(features[k]))
  }

  /** `err.response.data.error` for a body that is not `null`; `None` is
      `undefined`. */
  function ErrorField(data: Body): Option<string>
  {
    if data.ErrorBody? then Some(data.error) else None
  }

  /** The message for a failed request, in the handler's priority order:
      response, then request, then neither. `None` when reading
      `.error` of a `null` response body throws inside the handler. */
  function FailureMessage(o: Outcome): (message: Option<string>)
    requires !o.Ok?
    ensures message.None? <==> o == ErrWithResponse(NullBody)
    ensures message.Some? ==> message.value != ""
    ensures o.ErrWithResponse? && message.Some? ==>
      |message.value| > |SERVER_ERROR_PREFIX| && message.value[..|SERVER_ERROR_PREFIX|] == SERVER_ERROR_PREFIX
    ensures o.ErrWithRequestOnly? ==> message == Some(NETWORK_ERROR)
    ensures o.ErrNoRequest? ==> message == Some(CLIENT_ERROR)
  {
    match o
    case ErrWithResponse(body) =>
      if body.NullBody? then None
      else
        var field := ErrorField(body);
        Some(SERVER_ERROR_PREFIX + (if field.Some? && field.value != "" then field.value else SERVER_ERROR_FALLBACK))
    case ErrWithRequestOnly => Some(NETWORK_ERROR)
    case ErrNoRequest => Some(CLIENT_ERROR)
  }

  /** The three kinds of failure a user is told about. */
  datatype Category = ServerError | NetworkError | ClientError

  /** Which kind a failed outcome is, by what the error object carries. */
  function CategoryOf(o: Outcome): Category
    requires !o.Ok?
  {
    if o.ErrWithResponse? then ServerError
    else if o.ErrWithRequestOnly? then NetworkError
    else ClientError
  }

  /** Reads the kind of failure back from a message shown to the user. */
  function MessageCategory(message: string): Option<Category>
  {
    if |message| >= |SERVER_ERROR_PREFIX| && message[..|SERVER_ERROR_PREFIX|] == SERVER_ERROR_PREFIX then Some(ServerError)
    else if message == NETWORK_ERROR then Some(NetworkError)
    else if message == CLIENT_ERROR then Some(ClientError)
    else None
  }

  /** The state once the awaited call has ended, starting from `SUBMITTING`:
      the `try` stores the data, the `catch` the message, `finally` clears
      `loading`. */
  function Settled(o: Outcome): (s: Snapshot)
    ensures !s.loading
    ensures o.Ok? ==> s.result == o.data && s.error.None?
    ensures !o.Ok? ==> s.result == NullBody && s.error == FailureMessage(o)
  {
    match o
    case Ok(data) => Snapshot(false, None, data)
    case _ => Snapshot(false, FailureMessage(o), NullBody)
  }

  /** The user's message names the kind of failure unambiguously, so the
      three branches never produce the same text. */
  lemma FailureKindRecoverable(o: Outcome)
    requires !o.Ok? && FailureMessage(o).Some?
    ensures MessageCategory(FailureMessage(o).value) == Some(CategoryOf(o))
  {
    if o.ErrWithResponse? {
      var m := FailureMessage(o).value;
      assert m[..|SERVER_ERROR_PREFIX|] == SERVER_ERROR_PREFIX;
    } else {
      assert NETWORK_ERROR[..|SERVER_ERROR_PREFIX|] != SERVER_ERROR_PREFIX by {
        assert NETWORK_ERROR[0] != SERVER_ERROR_PREFIX[0];
      }
      assert CLIENT_ERROR[..|SERVER_ERROR_PREFIX|] != SERVER_ERROR_PREFIX by {
        assert CLIENT_ERROR[0] != SERVER_ERROR_PREFIX[0];
      }
    }
  }

  /** A server error shows the service's own text when it sent a non-empty
      `error`, and the fallback otherwise. Only a `null` body gives no
      message at all. */
  lemma ServerErrorText(body: Body)
    ensures body.ErrorBody? && body.error != "" ==>
            FailureMessage(ErrWithResponse(body)) == Some("Server Error: " + body.error)
    ensures (body.TextBody? || body.PredictionBody? || body == ErrorBody("")) ==>
            FailureMessage(ErrWithResponse(body)) == Some("Server Error: " + "An issue occurred")
    ensures FailureMessage(ErrWithResponse(body)).None? <==> body.NullBody?
  {
  }

  /** After the call ends the page is idle again, holding either the data
      or an error but never both, and the state is one the page can reach. */
  lemma SettledState(o: Outcome)
    ensures !Settled(o).loading && Consistent(Settled(o))
    ensures o.Ok? ==> Settled(o).result == o.data && Settled(o).error.None?
    ensures !o.Ok? ==> Settled(o).result == NullBody
    ensures !o.Ok? ==> (Settled(o).error.Some? <==> o != ErrWithResponse(NullBody))
    ensures PhaseOf(Settled(o)) ==
            match o
            case Ok(data) => if Truthy(data) then Succeeded(data) else Idle
            case _ => if o == ErrWithResponse(NullBody) then Idle else Failed(FailureMessage(o).value)
  {
  }

  /** The page component. `features` is replaced, never written in place,
      when an input changes. */
  class App {
    var features: array<string>
    var result: Body
    var error: Option<string>
    var loading: bool

    function State(): Snapshot
      reads this
    {
      Snapshot(loading, error, result)
    }

    ghost predicate Valid()
      reads this
    {
      features.Length == FIELD_COUNT && Consistent(State())
    }

    /** Mounting: eight empty inputs, no result, no error, not loading. */
    constructor ()
      ensures Valid() && fresh(features)
      ensures features[..] == seq(FIELD_COUNT, _ => "")
      ensures State() == INITIAL
    {
      features := new string[FIELD_COUNT](_ => "");
      result, error, loading := NullBody, None, false;
    }

    /** `handleChange(index, value)`: copy the inputs, replace one slot,
      install the copy. The previous array is left as it was. */
    method HandleChange(index: nat, value: string)
      requires Valid() && index < features.Length
      modifies this
      ensures Valid() && fresh(features)
      ensures features[..] == old(features[..])[index := value]
      ensures old(features)[..] == old(features[..])
      ensures State() == old(State())
    {
      var current := features[..];
      var copy := new string[|current|](k requires 0 <= k < |current| => current[k]);
      copy[index] := value;
      features := copy;
    }

    /** `handleSubmit` up to the `await`: clear the error and the result,
      set `loading`, and issue the one request built from the inputs. */
    method BeginSubmit(parse: string -> Num) returns (request: seq<Num>)
      requires Valid()
      modifies this
      ensures Valid() && features == old(features)
      ensures State() == SUBMITTING
      ensures request == Payload(features[..], parse)
    {
      error := None;
      result := NullBody;
      loading := true;
      request := Payload(features[..], parse);
    }

    /** `handleSubmit` after the `await`: the `try`/`catch`/`finally` that
      stores the data or the classified error and clears `loading`. */
    method Settle(outcome: Outcome)
      requires Valid() && loading
      modifies this
      ensures Valid() && features == old(features)
      ensures State() == Settled(outcome)
    {
      match outcome {
        case Ok(data) =>
          result := data;
        case ErrWithResponse(body) =>
          if !body.NullBody? {
            var field := ErrorField(body);
            error := Some(SERVER_ERROR_PREFIX + (if field.Some? && field.value != "" then field.value else SERVER_ERROR_FALLBACK));
          }
        case ErrWithRequestOnly =>
          error := Some(NETWORK_ERROR);
        case ErrNoRequest =>
          error := Some(CLIENT_ERROR);
      }
      loading := false;
      SettledState(outcome);
    }

    /** The whole of `handleSubmit` when nothing else happens while the
      request is in flight; `send` is the POST. */
    method HandleSubmit(parse: string -> Num, send: seq<Num> -> Outcome) returns (request: seq<Num>)
      requires Valid()
      modifies this
      ensures Valid() && features == old(features)
      ensures request == Payload(old(features[..]), parse)
      ensures State() == Settled(send(request))
    {
      request := BeginSubmit(parse);
      Settle(send(request));
    }

    /** Pressing the submit button (or Enter in an input): the browser
      dispatches the form's submit only while the button is enabled, that
      is while no request is in flight. */
    method PressPredict(parse: string -> Num) returns (request: Option<seq<Num>>)
      requires Valid()
      modifies this
      ensures Valid() && features == old(features)
      ensures old(loading) ==> request == None && State() == old(State())
      ensures !old(loading) ==> request == Some(Payload(features[..], parse)) && State() == SUBMITTING
    {
      if Project(State()).buttonDisabled {
        request := None;
      } else {
        var sent := BeginSubmit(parse);
        request := Some(sent);
      }
    }
  }
}
