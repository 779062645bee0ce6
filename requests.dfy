/** `NetworkRequest`: the request object Volley sends, with its default headers, ETag support and response chain. */
module Requests {
  import opened Wrappers
  import opened Volley
  import opened Descriptors
  import opened Foreign
  import ResponseInterceptors

  /**
   * `parseNetworkResponse`'s result: the body as text with the cache entry Volley derives
   * from the response, or the null dereference that decoding a null body raises.
   */
  datatype ParseOutcome = Parsed(text: string, cacheEntry: Option<CacheEntry>) | NullData

  /** Decoding the final response: its body in the charset its headers name, and its cache headers. */
  function Decode(r: NetworkResponse, o: Oracles): (p: ParseOutcome)
    ensures p.NullData? <==> r.data.None?
    ensures r.data.Some? ==> p.text == o.decodeBody(r.data.value, r.Headers())
    ensures r.data.Some? ==> p.cacheEntry == o.parseCacheHeaders(r)
  {
    if r.data.None? then NullData else Parsed(o.decodeBody(r.data.value, r.Headers()), o.parseCacheHeaders(r))
  }

  function Lookup(cache: map<Url, CacheEntry>, key: Url): Option<CacheEntry> {
    if key in cache then Some(cache[key]) else None
  }

  /** A cache entry exists and carries a validator (`!TextUtils.isEmpty(entry.etag)`). */
  predicate HasEtag(entry: Option<CacheEntry>) {
    entry.Some? && entry.value.etag.Some? && |entry.value.etag.value| > 0
  }

  /**
   * The headers after `getHeaders`: with a validator cached, `If-None-Match` carries it
   * (a conditional request, section 3.2 of RFC 7232) and nothing else changes; without one
   * the headers are as they were. No header is ever dropped.
   */
  function WithEtag(headers: map<string, string>, entry: Option<CacheEntry>): (h: map<string, string>)
    ensures HasEtag(entry) ==> IfNoneMatch in h && h[IfNoneMatch] == entry.value.etag.value
    ensures HasEtag(entry) ==> forall k :: k in headers && k != IfNoneMatch ==> k in h && h[k] == headers[k]
    ensures HasEtag(entry) ==> h.Keys == headers.Keys + {IfNoneMatch}
    ensures !HasEtag(entry) ==> h == headers
  {
    if HasEtag(entry) then headers[IfNoneMatch := entry.value.etag.value] else headers
  }

  /** Asking for the headers again with the same cache changes nothing more. */
  lemma WithEtagIdempotent(headers: map<string, string>, entry: Option<CacheEntry>)
    ensures WithEtag(WithEtag(headers, entry), entry) == WithEtag(headers, entry)
  {
  }

  class NetworkRequest {
    const httpMethod: Method
    const url: Url
    var headers: map<string, string>
    const params: map<string, string>
    const body: Option<Bytes>
    var shouldCache: bool
    var retryPolicy: RetryPolicy
    var canceled: bool
    var cacheEntry: Option<CacheEntry>
    var networkResponse: Option<NetworkResponse>

    function Snapshot(): RequestData
      reads this
    {
      RequestData(httpMethod, url, headers, params, body, shouldCache, retryPolicy,
                  canceled, cacheEntry, networkResponse)
    }

    /**
     * The seven-argument constructor: default headers overridden by the caller's, the
     * caller's params (or none), the body exactly as passed.
     */
    constructor (httpMethod: Method, url: Url, headers: Option<map<string, string>>,
                 params: Option<map<string, string>>, body: Option<Bytes>)
      ensures Snapshot() == Initial(httpMethod, url, headers, params, body)
    {
      this.httpMethod := httpMethod;
      this.url := url;
      this.headers := InitialHeaders(headers);
      this.params := InitialParams(params);
      this.body := body;
      shouldCache, retryPolicy, canceled := true, DefaultRetry, false;
      cacheEntry, networkResponse := None, None;
    }

    /** The four-argument constructor: a GET with no params and no body. */
    constructor Get(url: Url, headers: Option<map<string, string>>)
      ensures Snapshot() == Initial(Method.Get, url, headers, None, None)
    {
      this.httpMethod := Method.Get;
      this.url := url;
      this.headers := InitialHeaders(headers);
      this.params := InitialParams(None);
      this.body := None;
      shouldCache, retryPolicy, canceled := true, DefaultRetry, false;
      cacheEntry, networkResponse := None, None;
    }

    /** A request object whose state is the given data (what an interceptor hands back). */
    constructor FromData(d: RequestData)
      ensures Snapshot() == d
    {
      httpMethod, url, headers, params, body := d.httpMethod, d.url, d.headers, d.params, d.body;
      shouldCache, retryPolicy, canceled := d.shouldCache, d.retryPolicy, d.canceled;
      cacheEntry, networkResponse := d.cacheEntry, d.networkResponse;
    }

    /** The key the cache is consulted under. Taking it to be the request's URL is a choice of this model. */
    function CacheKey(): Url {
      url
    }

    /** `getHeaders()`: adds the cached validator as `If-None-Match`, keeps it in the request's headers, returns them. */
    method GetHeaders(cache: map<Url, CacheEntry>) returns (h: map<string, string>)
      modifies this`headers
      ensures headers == WithEtag(old(headers), Lookup(cache, CacheKey()))
      ensures h == headers
    {
      var entry := Lookup(cache, CacheKey());
      if entry.Some? && entry.value.etag.Some? && |entry.value.etag.value| > 0 {
        headers := headers[IfNoneMatch := entry.value.etag.value];
      }
      h := headers;
    }

    /** `getBody()`: the raw body the request was built with. */
    function GetBody(): (b: Option<Bytes>)
      reads this
      ensures b == Snapshot().body
    {
      body
    }

    /** `getParams()`: the form parameters, empty when none were given. */
    function GetParams(): (p: map<string, string>)
      reads this
      ensures p == Snapshot().params
    {
      params
    }

    /**
     * `parseNetworkResponse(response)`: records the response as received, runs every
     * response interceptor over it in order, and decodes what the last one returned.
     * `chain` is the client's response-interceptor list.
     */
    method ParseNetworkResponse(response: NetworkResponse, chain: seq<ResponseInterceptors.ResponseInterceptor>,
                                o: Oracles)
      returns (parsed: ParseOutcome)
      modifies this`networkResponse
      ensures networkResponse == Some(response)
      ensures parsed == Decode(ResponseInterceptors.Fold(chain, response, o), o)
    {
      networkResponse := Some(response);
      var r := response;
      var i := 0;
      while i < |chain|
        invariant 0 <= i <= |chain|
        invariant r == ResponseInterceptors.Fold(chain[..i], response, o)
      {
        assert chain[..i + 1][..i] == chain[..i];
        r := ResponseInterceptors.Apply(chain[i], r, o);
        i := i + 1;
      }
      assert chain[..|chain|] == chain;
      if r.data.None? {
        parsed := NullData;
      } else {
        parsed := Parsed(o.decodeBody(r.data.value, r.Headers()), o.parseCacheHeaders(r));
      }
    }

    /** `getNetworkResponse()`: null until a response has been parsed. */
    function GetNetworkResponse(): (r: Option<NetworkResponse>)
      reads this
      ensures r == Snapshot().networkResponse
    {
      networkResponse
    }

    method SetShouldCache(b: bool)
      modifies this`shouldCache
      ensures shouldCache == b
    {
      shouldCache := b;
    }

    method SetRetryPolicy(p: RetryPolicy)
      modifies this`retryPolicy
      ensures retryPolicy == p
    {
      retryPolicy := p;
    }

    method SetCacheEntry(e: CacheEntry)
      modifies this`cacheEntry
      ensures cacheEntry == Some(e)
    {
      cacheEntry := Some(e);
    }

    /** Volley's `cancel()`. */
    method Cancel()
      modifies this`canceled
      ensures canceled
    {
      canceled := true;
    }
  }
}
