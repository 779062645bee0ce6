/** The data a `NetworkRequest` carries, as one value. */
module Descriptors {
  import opened Wrappers
  import opened Volley
  import Maps

  /**
   * Everything a request object holds that the core reads or writes: how and where it is
   * sent, its headers, form parameters and raw body, Volley's cache flag, retry policy and
   * cancel flag, the cache entry attached to it and the response it recorded.
   */
  datatype RequestData = RequestData(
    httpMethod: Method,
    url: Url,
    headers: map<string, string>,
    params: map<string, string>,
    body: Option<Bytes>,
    shouldCache: bool,
    retryPolicy: RetryPolicy,
    canceled: bool,
    cacheEntry: Option<CacheEntry>,
    networkResponse: Option<NetworkResponse>)

  const AcceptEncoding := "Accept-Encoding"
  const IfNoneMatch := "If-None-Match"

  /** The default header set every request starts with: it asks for a gzip-compressed body. */
  const DefaultHeaders: map<string, string> := map[AcceptEncoding := "gzip"]

  /**
   * The headers of a new request: the defaults, then the caller's headers over them.
   * `Accept-Encoding` is always present and is `gzip` unless the caller set it.
   */
  function InitialHeaders(supplied: Option<map<string, string>>): (h: map<string, string>)
    ensures AcceptEncoding in h
    ensures h[AcceptEncoding] ==
              if supplied.Some? && AcceptEncoding in supplied.value then supplied.value[AcceptEncoding] else "gzip"
    ensures supplied.Some? ==> forall k :: k in supplied.value ==> k in h && h[k] == supplied.value[k]
    ensures forall k :: k in h ==> k == AcceptEncoding || (supplied.Some? && k in supplied.value)
    ensures supplied.None? ==> h == DefaultHeaders
  {
    if supplied.Some? then Maps.PutAll(Some(DefaultHeaders), supplied.value) else DefaultHeaders
  }

  /** The form parameters of a new request: empty when none were supplied, otherwise the supplied map. */
  function InitialParams(supplied: Option<map<string, string>>): (p: map<string, string>)
    ensures supplied.None? ==> p == map[]
    ensures supplied.Some? ==> p == supplied.value
  {
    if supplied.Some? then Maps.PutAll(Some(map[]), supplied.value) else map[]
  }

  /**
   * A freshly constructed request: its own defaults for headers and params, the body as
   * given, and Volley's own starting values (cached, default retry policy, not canceled,
   * no cache entry, no response yet).
   */
  function Initial(httpMethod: Method, url: Url, headers: Option<map<string, string>>,
                   params: Option<map<string, string>>, body: Option<Bytes>): (d: RequestData)
    ensures d.httpMethod == httpMethod && d.url == url && d.body == body
    ensures d.headers == InitialHeaders(headers) && d.params == InitialParams(params)
    ensures d.shouldCache && d.retryPolicy == DefaultRetry && !d.canceled
    ensures d.cacheEntry.None? && d.networkResponse.None?
  {
    RequestData(httpMethod, url, InitialHeaders(headers), InitialParams(params), body,
                true, DefaultRetry, false, None, None)
  }
}
