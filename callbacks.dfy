/**
 * `Callback<T>`: a caller's pair of success and error handlers, identified by the result
 * type it declares. The type that the source recovers by reflection is an explicit tag.
 */
module Callbacks {
  import opened Wrappers
  import opened EasyVolleyResponses
  import opened Errors

  /** The declared result type: the three the built-in adapters handle, or a user type that Gson decodes. */
  datatype TypeTag = StringType | JsonObjectType | JsonArrayType | PojoType(name: string)

  datatype Callback = Callback(id: nat, resultType: TypeTag)

  /** An object built by a foreign decoder (org.json or Gson), known only by identity. */
  datatype ObjectHandle = ObjectHandle(id: nat)

  /** What `onSuccess` receives: the body text itself, or an object decoded from it. */
  datatype Value = Text(text: string) | Decoded(handle: ObjectHandle)

  /**
   * One call into a callback. Success records the envelope when the caller passed one;
   * the one-argument `onSuccess(value)` calls in the source pass none.
   */
  datatype Invocation =
    | OnSuccess(callback: Callback, value: Value, envelope: Option<EasyVolleyResponse>)
    | OnError(callback: Callback, error: EasyVolleyError)

  /**
   * The delivery contract of a response handler: a null callback is called never, any
   * other callback exactly once and no other callback at all.
   */
  predicate DeliversOnce(callback: Option<Callback>, log: seq<Invocation>) {
    if callback.None? then log == [] else |log| == 1 && log[0].callback == callback.value
  }
}
