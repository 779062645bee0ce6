/** `EasyVolleyError`: the one error shape every failure reaches a callback in. */
module Errors {
  import opened Wrappers
  import opened Volley

  /** Message, round-trip time, HTTP status (-1 when unknown), raw body and headers (both nullable). */
  datatype EasyVolleyError = EasyVolleyError(
    message: Option<string>,
    networkTimeMs: int,
    statusCode: int,
    data: Option<Bytes>,
    headers: Option<map<string, string>>)

  const UnknownStatus: int := -1
  const GenericMessage := "Something went wrong"

  /** The private message-only constructor: no time, unknown status, no body and no headers. */
  function WithMessage(message: Option<string>): (e: EasyVolleyError)
    ensures e.message == message && e.networkTimeMs == 0 && e.statusCode == UnknownStatus
    ensures e.data.None? && e.headers.None?
  {
    EasyVolleyError(message, 0, UnknownStatus, None, None)
  }

  /** The private constructor from a Volley error that carries a response: that response's status, body and headers. */
  function WithResponse(error: VolleyError): (e: EasyVolleyError)
    requires error.networkResponse.Some?
    ensures e.message == error.message && e.networkTimeMs == error.networkTimeMs
    ensures e.statusCode == error.networkResponse.value.statusCode
    ensures e.data == error.networkResponse.value.data
    ensures e.headers == Some(error.networkResponse.value.Headers())
  {
    var r := error.networkResponse.value;
    EasyVolleyError(error.message, error.networkTimeMs, r.statusCode, r.data, Some(r.Headers()))
  }

  /**
   * `from(VolleyError)`: a null error becomes the generic message with nothing else known;
   * an error without a response keeps its message and time with status -1 and no body or
   * headers; an error with a response also copies the response's status, body and headers.
   */
  function From(error: Option<VolleyError>): (e: EasyVolleyError)
    ensures error.None? ==> e == EasyVolleyError(Some(GenericMessage), 0, UnknownStatus, None, None)
    ensures error.Some? ==> e.message == error.value.message && e.networkTimeMs == error.value.networkTimeMs
    ensures error.Some? && error.value.networkResponse.None? ==>
              e.statusCode == UnknownStatus && e.data.None? && e.headers.None?
    ensures error.Some? && error.value.networkResponse.Some? ==>
              var r := error.value.networkResponse.value;
              e.statusCode == r.statusCode && e.data == r.data && e.headers == Some(r.Headers())
  {
    if error.None? then WithMessage(Some(GenericMessage))
    else if error.value.networkResponse.None? then
      EasyVolleyError(error.value.message, error.value.networkTimeMs, UnknownStatus, None, None)
    else WithResponse(error.value)
  }

  /** `from(String)`: the message, time 0, status -1, no body and no headers. */
  function FromMessage(message: Option<string>): (e: EasyVolleyError)
    ensures e == EasyVolleyError(message, 0, UnknownStatus, None, None)
  {
    WithMessage(message)
  }

  /**
   * The two factories agree: a Volley error built from a bare message (`new VolleyError(m)`)
   * normalises to exactly what `from(m)` builds.
   */
  lemma MessageErrorsAgree(m: string)
    ensures From(Some(ErrorWithMessage(m))) == FromMessage(Some(m))
  {
  }
}
