/**
 * The fluent request builders: `NetworkRequestBuilder`, and `BaseRequest` with its two
 * subclasses `PostRequest` and `GetRequest`. Setters ignore null and non-positive
 * arguments; `execute` rejects a missing URL, builds the request and routes it by policy.
 */
module Builders {
  import opened Wrappers
  import opened Volley
  import opened Policy
  import opened Errors
  import opened Callbacks
  import opened Foreign
  import opened Descriptors
  import opened Requests
  import opened NetworkClients
  import RequestInterceptors
  import Maps
  import Utf8

  datatype JavaException = NullDereference | IllegalArgumentException(message: string)

  /** How a builder call ended: normally, or by throwing. */
  datatype Outcome = Completed | Threw(exception: JavaException)

  const EmptyUrlMessage := "Empty URL for network request"

  /**
   * `getUrl()`: the Uri builder's URL once a query parameter has been added, otherwise the
   * URL as given (null when none was given).
   */
  function CurrentUrl(url: Option<string>, uri: Option<Url>): (u: Option<Url>)
    ensures uri.None? ==> (u.Some? <==> url.Some?)
    ensures uri.None? && url.Some? ==> u.value.base == url.value && u.value.query == []
    ensures uri.Some? ==> u == uri
  {
    if uri.Some? then uri else if url.Some? then Some(Url(url.value, [])) else None
  }

  /**
   * `addQueryParam(name, value)`: the Uri builder is created from the URL on first use
   * (which throws for a null URL) and the parameter is appended after those already there.
   */
  function Appended(url: Option<string>, uri: Option<Url>, name: string, value: string): (r: Option<Url>)
    ensures r.None? <==> CurrentUrl(url, uri).None?
    ensures r.Some? ==> r.value.base == CurrentUrl(url, uri).value.base
    ensures r.Some? ==> r.value.query == CurrentUrl(url, uri).value.query + [QueryParam(name, value)]
  {
    var u := CurrentUrl(url, uri);
    if u.None? then None else Some(Url(u.value.base, u.value.query + [QueryParam(name, value)]))
  }

  /** What `getUrl()` reports after `addQueryParam` has been called with each of `ps` in turn. */
  function AppendAll(url: Option<string>, uri: Option<Url>, ps: seq<QueryParam>): Option<Url> {
    if ps == [] then CurrentUrl(url, uri)
    else
      var last := ps[|ps| - 1];
      Appended(url, AppendAll(url, uri, ps[..|ps| - 1]), last.name, last.value)
  }

  /**
   * Adding parameters one after another keeps the base and lists them after the existing
   * ones, in the order added; without a URL there is none to add to.
   */
  lemma {:induction false} AppendedInOrder(url: Option<string>, uri: Option<Url>, ps: seq<QueryParam>)
    ensures CurrentUrl(url, uri).None? ==> AppendAll(url, uri, ps).None?
    ensures CurrentUrl(url, uri).Some? ==>
              AppendAll(url, uri, ps) == Some(Url(CurrentUrl(url, uri).value.base, CurrentUrl(url, uri).value.query + ps))
  {
    if ps == [] {
      if CurrentUrl(url, uri).Some? {
        assert CurrentUrl(url, uri).value.query + ps == CurrentUrl(url, uri).value.query;
      }
    } else {
      var init, last := ps[..|ps| - 1], ps[|ps| - 1];
      AppendedInOrder(url, uri, init);
      if CurrentUrl(url, uri).Some? {
        var u := CurrentUrl(url, uri).value;
        assert u.query + init + [QueryParam(last.name, last.value)] == u.query + ps;
      }
    }
  }

  /** `onError(error)`: a null callback is not called; any other gets one `onError` with the normalised error. */
  function ErrorCalls(callback: Option<Callback>, error: Option<VolleyError>): (log: seq<Invocation>)
    ensures DeliversOnce(callback, log)
    ensures forall call :: call in log ==> call == OnError(callback.value, From(error))
  {
    if callback.None? then [] else [OnError(callback.value, From(error))]
  }

  /**
   * `add(request)`: an `OFFLINE` request goes to the cache-only queue as it is; any other
   * goes to the network queue, told to use the cache unless the policy is `NO_CACHE`.
   */
  method AddRouted(policy: NetworkPolicy, request: NetworkRequest, client: NetworkClient)
    modifies client`cacheOnlyQueue, client`networkQueue, request`shouldCache
    ensures Route(policy).CacheOnly? ==>
              && client.cacheOnlyQueue == old(client.cacheOnlyQueue) + [request]
              && client.networkQueue == old(client.networkQueue)
              && request.shouldCache == old(request.shouldCache)
    ensures Route(policy).Network? ==>
              && client.networkQueue == old(client.networkQueue) + [request]
              && client.cacheOnlyQueue == old(client.cacheOnlyQueue)
              && request.shouldCache == Route(policy).shouldCache
  {
    if policy == Offline {
      client.AddCacheOnlyRequest(request);
      return;
    }
    request.SetShouldCache(policy != NoCache);
    client.AddNetworkRequest(request);
  }

  class NetworkRequestBuilder {
    const url: Option<string>
    var callback: Option<Callback>
    var headers: Option<map<string, string>>
    /** The Uri builder: absent until the first query parameter is added. */
    var uri: Option<Url>
    var policy: NetworkPolicy
    var params: Option<map<string, string>>
    var body: Option<Bytes>
    const httpMethod: Method
    var timeoutMs: int32
    var maxRetries: int32
    var backoff: real
    var request: NetworkRequest?

    /** A new builder: `DEFAULT` policy, the client's socket timeout and Volley's default retry count and backoff. */
    constructor (url: Option<string>, httpMethod: Method, defaultSocketTimeoutMs: int32)
      ensures this.url == url && this.httpMethod == httpMethod
      ensures callback.None? && headers.None? && uri.None? && params.None? && body.None? && request == null
      ensures policy == Default
      ensures timeoutMs == defaultSocketTimeoutMs && maxRetries == DefaultMaxRetries
      ensures backoff == DefaultBackoffMultiplier
    {
      this.url, this.httpMethod := url, httpMethod;
      callback, headers, uri, params, body, request := None, None, None, None, None, null;
      policy := Default;
      timeoutMs, maxRetries, backoff := defaultSocketTimeoutMs, DefaultMaxRetries, DefaultBackoffMultiplier;
    }

    /** `getUrl()`: the Uri builder's URL once there is one, otherwise the URL as given. */
    function GetUrl(): (u: Option<Url>)
      reads this
      ensures uri.Some? ==> u == uri
      ensures uri.None? ==> u == if url.Some? then Some(Url(url.value, [])) else None
    {
      CurrentUrl(url, uri)
    }

    /** `setRequestBody(String)`: the UTF-8 encoding of the text; null keeps the previous body. */
    method SetRequestText(text: Option<string>)
      modifies this`body
      ensures body == if text.Some? then Some(Utf8.Encode(text.value)) else old(body)
    {
      if text.Some? {
        body := Some(Utf8.Encode(text.value));
      }
    }

    /** `setRequestBody(byte[])`: the bytes as given; null keeps the previous body. */
    method SetRequestBytes(bytes: Option<Bytes>)
      modifies this`body
      ensures body == if bytes.Some? then bytes else old(body)
    {
      if bytes.Some? {
        body := bytes;
      }
    }

    /** `addParams(Map)`: every entry is put into the params, creating them on first use. */
    method AddParams(entries: map<string, string>)
      modifies this`params
      ensures params == Some(Maps.PutAll(old(params), entries))
    {
      params := Some(Maps.PutAll(params, entries));
    }

    /** `addParams(key, value)`. */
    method AddParam(key: string, value: string)
      modifies this`params
      ensures params == Some(Maps.Put(old(params), key, value))
    {
      params := Some(Maps.Put(params, key, value));
    }

    /** `setCallback`: null keeps the previous callback. */
    method SetCallback(cb: Option<Callback>)
      modifies this`callback
      ensures callback == if cb.Some? then cb else old(callback)
    {
      if cb.Some? {
        callback := cb;
      }
    }

    /** `addHeader(Map)`: every entry is put into the headers, creating them on first use. */
    method AddHeaders(entries: map<string, string>)
      modifies this`headers
      ensures headers == Some(Maps.PutAll(old(headers), entries))
    {
      headers := Some(Maps.PutAll(headers, entries));
    }

    /** `addHeader(key, value)`. */
    method AddHeader(key: string, value: string)
      modifies this`headers
      ensures headers == Some(Maps.Put(old(headers), key, value))
    {
      headers := Some(Maps.Put(headers, key, value));
    }

    /** `addQueryParam`: throws, changing nothing, when there is no URL to parse. */
    method AddQueryParam(name: string, value: string) returns (outcome: Outcome)
      modifies this`uri
      ensures old(GetUrl()).None? ==> outcome == Threw(NullDereference) && uri == old(uri)
      ensures old(GetUrl()).Some? ==> outcome == Completed && uri == Appended(url, old(uri), name, value)
    {
      var u := Appended(url, uri, name, value);
      if u.None? {
        return Threw(NullDereference);
      }
      uri := u;
      outcome := Completed;
    }

    /** `setNetworkPolicy`: null keeps the previous policy. */
    method SetNetworkPolicy(p: Option<NetworkPolicy>)
      modifies this`policy
      ensures policy == if p.Some? then p.value else old(policy)
    {
      if p.Some? {
        policy := p.value;
      }
    }

    /** `setSocketTimeoutMS`: a non-positive timeout keeps the previous one. */
    method SetSocketTimeoutMs(ms: int32)
      modifies this`timeoutMs
      ensures timeoutMs == if ms > 0 then ms else old(timeoutMs)
    {
      if ms > 0 {
        timeoutMs := ms;
      }
    }

    /** `setMaxNumRetries`: a non-positive count keeps the previous one. */
    method SetMaxNumRetries(n: int32)
      modifies this`maxRetries
      ensures maxRetries == if n > 0 then n else old(maxRetries)
    {
      if n > 0 {
        maxRetries := n;
      }
    }

    /** `setBackoffMultiplier`: a non-positive multiplier keeps the previous one. */
    method SetBackoffMultiplier(m: real)
      modifies this`backoff
      ensures backoff == if m > 0.0 then m else old(backoff)
    {
      if m > 0.0 {
        backoff := m;
      }
    }

    /** `onError(error)`: one `onError` with the normalised error, unless there is no callback. */
    function OnError(error: Option<VolleyError>): (log: seq<Invocation>)
      reads this
      ensures DeliversOnce(callback, log)
      ensures forall call :: call in log ==> call == Invocation.OnError(callback.value, From(error))
    {
      ErrorCalls(callback, error)
    }

    method Add(r: NetworkRequest, client: NetworkClient)
      modifies client`cacheOnlyQueue, client`networkQueue, r`shouldCache
      ensures Route(policy).CacheOnly? ==>
                && client.cacheOnlyQueue == old(client.cacheOnlyQueue) + [r]
                && client.networkQueue == old(client.networkQueue)
                && r.shouldCache == old(r.shouldCache)
      ensures Route(policy).Network? ==>
                && client.networkQueue == old(client.networkQueue) + [r]
                && client.cacheOnlyQueue == old(client.cacheOnlyQueue)
                && r.shouldCache == Route(policy).shouldCache
    {
      AddRouted(policy, r, client);
    }

    /** The request `execute` constructs before the interceptors run: the builder's data and retry settings. */
    function Built(): (d: RequestData)
      requires GetUrl().Some?
      reads this
      ensures d.url == GetUrl().value && d.httpMethod == httpMethod && d.body == body
      ensures d.headers == InitialHeaders(headers) && d.params == InitialParams(params)
      ensures d.retryPolicy == RetryPolicy(timeoutMs, maxRetries, backoff)
    {
      Initial(httpMethod, GetUrl().value, headers, params, body).(retryPolicy := RetryPolicy(timeoutMs, maxRetries, backoff))
    }

    /**
     * `execute()`: without a URL it throws and enqueues nothing. Otherwise it builds the
     * request, hands it through every request interceptor in order, and routes what the
     * last one returned.
     */
    method Execute(client: NetworkClient, o: Oracles) returns (outcome: Outcome)
      modifies this`request, client`networkQueue, client`cacheOnlyQueue
      ensures GetUrl().None? ==>
                && outcome == Threw(IllegalArgumentException(EmptyUrlMessage))
                && request == old(request)
                && client.networkQueue == old(client.networkQueue)
                && client.cacheOnlyQueue == old(client.cacheOnlyQueue)
      ensures GetUrl().Some? ==>
                && outcome == Completed
                && request != null && fresh(request)
                && var d := RequestInterceptors.Fold(client.requestInterceptors, Built(), o);
                   match Route(policy)
                   case CacheOnly =>
                     && request.Snapshot() == d
                     && client.cacheOnlyQueue == old(client.cacheOnlyQueue) + [request]
                     && client.networkQueue == old(client.networkQueue)
                   case Network(cached) =>
                     && request.Snapshot() == d.(shouldCache := cached)
                     && client.networkQueue == old(client.networkQueue) + [request]
                     && client.cacheOnlyQueue == old(client.cacheOnlyQueue)
    {
      var u := GetUrl();
      if u.None? {
        return Threw(IllegalArgumentException(EmptyUrlMessage));
      }
      var r := new NetworkRequest(httpMethod, u.value, headers, params, body);
      r.SetRetryPolicy(RetryPolicy(timeoutMs, maxRetries, backoff));
      r := RequestInterceptors.InterceptAll(client.requestInterceptors, r, o);
      request := r;
      Add(r, client);
      outcome := Completed;
    }
  }

  /** The state `BaseRequest` keeps for its subclasses. */
  class BaseRequest {
    const url: Option<string>
    var callback: Option<Callback>
    var headers: Option<map<string, string>>
    var uri: Option<Url>
    var policy: NetworkPolicy

    constructor (url: Option<string>)
      ensures this.url == url && callback.None? && headers.None? && uri.None? && policy == Default
    {
      this.url := url;
      callback, headers, uri, policy := None, None, None, Default;
    }

    /** `getUrl()`: the Uri builder's URL once there is one, otherwise the URL as given. */
    function GetUrl(): (u: Option<Url>)
      reads this
      ensures uri.Some? ==> u == uri
      ensures uri.None? ==> u == if url.Some? then Some(Url(url.value, [])) else None
    {
      CurrentUrl(url, uri)
    }

    /** `getHeaders()`: the headers added so far, null when none were. */
    function GetHeaders(): (h: Option<map<string, string>>)
      reads this
      ensures h == headers
    {
      headers
    }

    /** `setCallback`: null keeps the previous callback. */
    method SetCallback(cb: Option<Callback>)
      modifies this`callback
      ensures callback == if cb.Some? then cb else old(callback)
    {
      if cb.Some? {
        callback := cb;
      }
    }

    /** `addHeader(Map)`. */
    method AddHeaders(entries: map<string, string>)
      modifies this`headers
      ensures headers == Some(Maps.PutAll(old(headers), entries))
    {
      headers := Some(Maps.PutAll(headers, entries));
    }

    /** `addHeader(key, value)`. */
    method AddHeader(key: string, value: string)
      modifies this`headers
      ensures headers == Some(Maps.Put(old(headers), key, value))
    {
      headers := Some(Maps.Put(headers, key, value));
    }

    /** `addQueryParam`: throws, changing nothing, when there is no URL to parse. */
    method AddQueryParam(name: string, value: string) returns (outcome: Outcome)
      modifies this`uri
      ensures old(GetUrl()).None? ==> outcome == Threw(NullDereference) && uri == old(uri)
      ensures old(GetUrl()).Some? ==> outcome == Completed && uri == Appended(url, old(uri), name, value)
    {
      var u := Appended(url, uri, name, value);
      if u.None? {
        return Threw(NullDereference);
      }
      uri := u;
      outcome := Completed;
    }

    /** `setNetworkPolicy`: null keeps the previous policy. */
    method SetNetworkPolicy(p: Option<NetworkPolicy>)
      modifies this`policy
      ensures policy == if p.Some? then p.value else old(policy)
    {
      if p.Some? {
        policy := p.value;
      }
    }

    /** `getNetworkPolicy()`. */
    function GetNetworkPolicy(): (p: NetworkPolicy)
      reads this
      ensures p == policy
    {
      policy
    }

    /** `onError(error)`: one `onError` with the normalised error, unless there is no callback. */
    function OnError(error: Option<VolleyError>): (log: seq<Invocation>)
      reads this
      ensures DeliversOnce(callback, log)
      ensures forall call :: call in log ==> call == Invocation.OnError(callback.value, From(error))
    {
      ErrorCalls(callback, error)
    }

    method Add(r: NetworkRequest, client: NetworkClient)
      modifies client`cacheOnlyQueue, client`networkQueue, r`shouldCache
      ensures Route(policy).CacheOnly? ==>
                && client.cacheOnlyQueue == old(client.cacheOnlyQueue) + [r]
                && client.networkQueue == old(client.networkQueue)
                && r.shouldCache == old(r.shouldCache)
      ensures Route(policy).Network? ==>
                && client.networkQueue == old(client.networkQueue) + [r]
                && client.cacheOnlyQueue == old(client.cacheOnlyQueue)
                && r.shouldCache == Route(policy).shouldCache
    {
      AddRouted(policy, r, client);
    }
  }

  /** The policy set last by the calls `ps` to `setNetworkPolicy`, skipping nulls; `initial` when every call passed null. */
  function LastNonNull(ps: seq<Option<NetworkPolicy>>, initial: NetworkPolicy): NetworkPolicy {
    if ps == [] then initial
    else if ps[|ps| - 1].Some? then ps[|ps| - 1].value
    else LastNonNull(ps[..|ps| - 1], initial)
  }

  /** A non-null call that no later non-null call follows decides the policy. */
  lemma {:induction false} LastNonNullIsLast(ps: seq<Option<NetworkPolicy>>, initial: NetworkPolicy, i: nat)
    requires i < |ps| && ps[i].Some?
    requires forall j :: i < j < |ps| ==> ps[j].None?
    ensures LastNonNull(ps, initial) == ps[i].value
  {
    if i < |ps| - 1 {
      var init := ps[..|ps| - 1];
      assert forall j :: i < j < |init| ==> init[j] == ps[j];
      LastNonNullIsLast(init, initial, i);
    }
  }

  /** Calls that all pass null leave the policy as it was. */
  lemma {:induction false} AllNullKeepsPolicy(ps: seq<Option<NetworkPolicy>>, initial: NetworkPolicy)
    requires forall j :: 0 <= j < |ps| ==> ps[j].None?
    ensures LastNonNull(ps, initial) == initial
  {
    if ps != [] {
      AllNullKeepsPolicy(ps[..|ps| - 1], initial);
    }
  }

  /** A fresh base request given the calls `ps` to `setNetworkPolicy` reports the last policy that was not null, else `DEFAULT`. */
  method PolicyIsLastNonNull(url: Option<string>, ps: seq<Option<NetworkPolicy>>) returns (b: BaseRequest)
    ensures fresh(b)
    ensures b.GetNetworkPolicy() == LastNonNull(ps, Default)
  {
    b := new BaseRequest(url);
    var i := 0;
    while i < |ps|
      invariant 0 <= i <= |ps|
      invariant b.GetNetworkPolicy() == LastNonNull(ps[..i], Default)
    {
      assert ps[..i + 1][..i] == ps[..i];
      b.SetNetworkPolicy(ps[i]);
      i := i + 1;
    }
    assert ps[..|ps|] == ps;
  }

  /** A fresh base request for `url` given the calls `ps` to `addQueryParam` reports `url` with `ps` in order. */
  method QueryParamsInOrder(url: string, ps: seq<QueryParam>) returns (b: BaseRequest)
    ensures fresh(b)
    ensures b.GetUrl() == Some(Url(url, ps))
  {
    b := new BaseRequest(Some(url));
    var i := 0;
    while i < |ps|
      invariant 0 <= i <= |ps|
      invariant b.url == Some(url)
      invariant b.GetUrl() == AppendAll(Some(url), None, ps[..i])
    {
      assert ps[..i + 1][..i] == ps[..i];
      AppendedInOrder(Some(url), None, ps[..i]);
      var _ := b.AddQueryParam(ps[i].name, ps[i].value);
      i := i + 1;
    }
    assert ps[..|ps|] == ps;
    AppendedInOrder(Some(url), None, ps);
    assert [] + ps == ps;
  }

  class PostRequest {
    const base: BaseRequest
    var params: Option<map<string, string>>
    var body: Option<Bytes>

    constructor (url: Option<string>)
      ensures fresh(base) && base.url == url && base.callback.None? && base.headers.None?
      ensures base.uri.None? && base.policy == Default
      ensures params.None? && body.None?
    {
      base := new BaseRequest(url);
      params, body := None, None;
    }

    /** `setRequestBody(String)`: the UTF-8 encoding of the text; null keeps the previous body. */
    method SetRequestText(text: Option<string>)
      modifies this`body
      ensures body == if text.Some? then Some(Utf8.Encode(text.value)) else old(body)
    {
      if text.Some? {
        body := Some(Utf8.Encode(text.value));
      }
    }

    /** `setRequestBody(byte[])`: the bytes as given; null keeps the previous body. */
    method SetRequestBytes(bytes: Option<Bytes>)
      modifies this`body
      ensures body == if bytes.Some? then bytes else old(body)
    {
      if bytes.Some? {
        body := bytes;
      }
    }

    /** `addParams(Map)`. */
    method AddParams(entries: map<string, string>)
      modifies this`params
      ensures params == Some(Maps.PutAll(old(params), entries))
    {
      params := Some(Maps.PutAll(params, entries));
    }

    /** `addParams(key, value)`. */
    method AddParam(key: string, value: string)
      modifies this`params
      ensures params == Some(Maps.Put(old(params), key, value))
    {
      params := Some(Maps.Put(params, key, value));
    }

    /**
     * `execute()`: without a URL it throws and enqueues nothing; otherwise a POST with the
     * builder's headers, params and body, routed by the policy. No interceptor runs and the
     * retry policy stays Volley's default.
     */
    method Execute(client: NetworkClient) returns (outcome: Outcome, request: NetworkRequest?)
      modifies client`networkQueue, client`cacheOnlyQueue
      ensures base.GetUrl().None? ==>
                && outcome == Threw(IllegalArgumentException(EmptyUrlMessage)) && request == null
                && client.networkQueue == old(client.networkQueue)
                && client.cacheOnlyQueue == old(client.cacheOnlyQueue)
      ensures base.GetUrl().Some? ==>
                && outcome == Completed && request != null && fresh(request)
                && var d := Initial(Method.Post, base.GetUrl().value, base.GetHeaders(), params, body);
                   match Route(base.policy)
                   case CacheOnly =>
                     && request.Snapshot() == d
                     && client.cacheOnlyQueue == old(client.cacheOnlyQueue) + [request]
                     && client.networkQueue == old(client.networkQueue)
                   case Network(cached) =>
                     && request.Snapshot() == d.(shouldCache := cached)
                     && client.networkQueue == old(client.networkQueue) + [request]
                     && client.cacheOnlyQueue == old(client.cacheOnlyQueue)
    {
      var u := base.GetUrl();
      if u.None? {
        return Threw(IllegalArgumentException(EmptyUrlMessage)), null;
      }
      request := new NetworkRequest(Method.Post, u.value, base.GetHeaders(), params, body);
      base.Add(request, client);
      outcome := Completed;
    }
  }

  class GetRequest {
    const base: BaseRequest

    constructor (url: Option<string>)
      ensures fresh(base) && base.url == url && base.callback.None? && base.headers.None?
      ensures base.uri.None? && base.policy == Default
    {
      base := new BaseRequest(url);
    }

    /**
     * `execute()` as written: without a URL it throws; otherwise a GET with the builder's
     * headers goes straight onto Volley's request queue, whatever the policy, and
     * `shouldCache` keeps its default.
     */
    method Execute(client: NetworkClient) returns (outcome: Outcome, request: NetworkRequest?)
      modifies client`requestQueue
      ensures base.GetUrl().None? ==>
                outcome == Threw(IllegalArgumentException(EmptyUrlMessage)) && request == null
                && client.requestQueue == old(client.requestQueue)
      ensures base.GetUrl().Some? ==>
                && outcome == Completed && request != null && fresh(request)
                && request.Snapshot() == Initial(Method.Get, base.GetUrl().value, base.GetHeaders(), None, None)
                && client.requestQueue == old(client.requestQueue) + [request]
      ensures client.cacheOnlyQueue == old(client.cacheOnlyQueue) && client.networkQueue == old(client.networkQueue)
    {
      var u := base.GetUrl();
      if u.None? {
        return Threw(IllegalArgumentException(EmptyUrlMessage)), null;
      }
      request := new NetworkRequest.Get(u.value, base.GetHeaders());
      client.AddToRequestQueue(request);
      outcome := Completed;
    }

    /** `execute()` as evidently intended: the same GET, routed through `add` like every other request. */
    method ExecuteRouted(client: NetworkClient) returns (outcome: Outcome, request: NetworkRequest?)
      modifies client`networkQueue, client`cacheOnlyQueue
      ensures base.GetUrl().None? ==>
                && outcome == Threw(IllegalArgumentException(EmptyUrlMessage)) && request == null
                && client.networkQueue == old(client.networkQueue)
                && client.cacheOnlyQueue == old(client.cacheOnlyQueue)
      ensures base.GetUrl().Some? ==>
                && outcome == Completed && request != null && fresh(request)
                && var d := Initial(Method.Get, base.GetUrl().value, base.GetHeaders(), None, None);
                   match Route(base.policy)
                   case CacheOnly =>
                     && request.Snapshot() == d
                     && client.cacheOnlyQueue == old(client.cacheOnlyQueue) + [request]
                     && client.networkQueue == old(client.networkQueue)
                   case Network(cached) =>
                     && request.Snapshot() == d.(shouldCache := cached)
                     && client.networkQueue == old(client.networkQueue) + [request]
                     && client.cacheOnlyQueue == old(client.cacheOnlyQueue)
      ensures client.requestQueue == old(client.requestQueue)
    {
      var u := base.GetUrl();
      if u.None? {
        return Threw(IllegalArgumentException(EmptyUrlMessage)), null;
      }
      request := new NetworkRequest.Get(u.value, base.GetHeaders());
      base.Add(request, client);
      outcome := Completed;
    }
  }

  /** As written, an `OFFLINE` GET never reaches the cache-only queue: it goes to the network. */
  method OfflineGetGoesToNetwork() returns (client: NetworkClient, request: NetworkRequest?)
    ensures request != null
    ensures client.requestQueue == [request] && client.cacheOnlyQueue == []
  {
    client := new NetworkClient([], []);
    var get := new GetRequest(Some("http://example.com/feed"));
    get.base.SetNetworkPolicy(Some(Offline));
    var outcome;
    outcome, request := get.Execute(client);
  }

  /** As written, a `NO_CACHE` GET is still marked to be cached. */
  method NoCacheGetStillCached() returns (client: NetworkClient, request: NetworkRequest?)
    ensures request != null && request.shouldCache
  {
    client := new NetworkClient([], []);
    var get := new GetRequest(Some("http://example.com/feed"));
    get.base.SetNetworkPolicy(Some(NoCache));
    var outcome;
    outcome, request := get.Execute(client);
  }

  /** Routed, an `OFFLINE` GET is answered from the cache-only queue and never sent. */
  method OfflineGetRoutedToCache() returns (client: NetworkClient, request: NetworkRequest?)
    ensures request != null
    ensures client.cacheOnlyQueue == [request] && client.requestQueue == [] && client.networkQueue == []
  {
    client := new NetworkClient([], []);
    var get := new GetRequest(Some("http://example.com/feed"));
    get.base.SetNetworkPolicy(Some(Offline));
    var outcome;
    outcome, request := get.ExecuteRouted(client);
  }

  /** Routed, a `NO_CACHE` GET goes to the network with caching turned off. */
  method NoCacheGetRoutedUncached() returns (client: NetworkClient, request: NetworkRequest?)
    ensures request != null && !request.shouldCache
    ensures client.networkQueue == [request] && client.cacheOnlyQueue == []
  {
    client := new NetworkClient([], []);
    var get := new GetRequest(Some("http://example.com/feed"));
    get.base.SetNetworkPolicy(Some(NoCache));
    var outcome;
    outcome, request := get.ExecuteRouted(client);
  }
}
