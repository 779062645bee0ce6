/**
 * The type adapters: each turns a response body into calls on the caller's callback.
 * `processResponse(callback, body, envelope)` is the one shape all of them take here.
 */
module Adapters {
  import opened Wrappers
  import opened EasyVolleyResponses
  import opened Errors
  import opened Callbacks
  import opened Foreign

  /** The three built-in adapters, or one an application registered. */
  datatype Adapter = StringTypeAdapter | JsonObjectTypeAdapter | JsonArrayTypeAdapter | CustomAdapter(id: nat)

  /** `StringTypeAdapter`: the body text as it came, with the envelope as it came; never an error. */
  function StringProcess(callback: Option<Callback>, body: string, envelope: Option<EasyVolleyResponse>)
    : (log: seq<Invocation>)
    ensures DeliversOnce(callback, log)
    ensures forall call :: call in log ==> call.OnSuccess? && call.value == Text(body) && call.envelope == envelope
  {
    if callback.None? then [] else [OnSuccess(callback.value, Text(body), envelope)]
  }

  /**
   * `JsonObjectTypeAdapter`: success with the parsed object and the envelope when the body
   * parses, otherwise an error built from the parser's message, whose status is unknown.
   */
  function JsonObjectProcess(callback: Option<Callback>, body: string, envelope: Option<EasyVolleyResponse>,
                             parse: string -> Result<ObjectHandle, string>)
    : (log: seq<Invocation>)
    ensures DeliversOnce(callback, log)
    ensures forall call :: call in log ==> (call.OnSuccess? <==> parse(body).Success?)
    ensures forall call :: call in log && call.OnSuccess? ==>
              call.value == Decoded(parse(body).value) && call.envelope == envelope
    ensures forall call :: call in log && call.OnError? ==>
              call.error == FromMessage(Some(parse(body).error)) && call.error.statusCode == UnknownStatus
  {
    if callback.None? then []
    else
      match parse(body)
      case Success(handle) => [OnSuccess(callback.value, Decoded(handle), envelope)]
      case Failure(message) => [OnError(callback.value, FromMessage(Some(message)))]
  }

  /**
   * `JsonArrayTypeAdapter`: success with the parsed array when the body parses (through the
   * one-argument `onSuccess`, so without an envelope), otherwise an error carrying the
   * parser's message.
   */
  function JsonArrayProcess(callback: Option<Callback>, body: string, parse: string -> Result<ObjectHandle, string>)
    : (log: seq<Invocation>)
    ensures DeliversOnce(callback, log)
    ensures forall call :: call in log ==> (call.OnSuccess? <==> parse(body).Success?)
    ensures forall call :: call in log && call.OnSuccess? ==>
              call.value == Decoded(parse(body).value) && call.envelope.None?
    ensures forall call :: call in log && call.OnError? ==>
              call.error == FromMessage(Some(parse(body).error)) && call.error.message == Some(parse(body).error)
  {
    if callback.None? then []
    else
      match parse(body)
      case Success(handle) => [OnSuccess(callback.value, Decoded(handle), None)]
      case Failure(message) => [OnError(callback.value, FromMessage(Some(message)))]
  }

  /**
   * `adapter.processResponse(callback, body, envelope)`. No adapter calls a null callback,
   * and each built-in one calls any other exactly once.
   */
  function Process(adapter: Adapter, callback: Option<Callback>, body: string,
                   envelope: Option<EasyVolleyResponse>, o: Oracles): (log: seq<Invocation>)
    ensures callback.None? ==> log == []
    ensures IsBuiltin(adapter) ==> DeliversOnce(callback, log)
  {
    match adapter
    case StringTypeAdapter => StringProcess(callback, body, envelope)
    case JsonObjectTypeAdapter => JsonObjectProcess(callback, body, envelope, o.parseJsonObject)
    case JsonArrayTypeAdapter => JsonArrayProcess(callback, body, o.parseJsonArray)
    case CustomAdapter(id) => if callback.None? then [] else o.typeAdapter(id, callback.value, body, envelope)
  }

  predicate IsBuiltin(adapter: Adapter) {
    !adapter.CustomAdapter?
  }
}
