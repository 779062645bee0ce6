# EasyVolley core, modelled in Dafny

EasyVolley is an Android HTTP client wrapped around Volley. A caller builds a request with a
fluent builder and gives it a network policy and a typed callback. The builder constructs a
Volley request and routes it by policy. `OFFLINE` goes to a cache-only queue that a
dedicated worker answers from the cache alone. Every other policy goes to the network queue,
with caching switched off for `NO_CACHE`. The request carries a default
`Accept-Encoding: gzip` header. It makes a conditional request (section 3.2 of RFC 7232)
from a cached ETag. Its response runs through a chain of response interceptors, one of which
inflates gzip-coded bodies (section 3.1.2.2 of RFC 7231). The decoded body reaches the
callback through a registry of type adapters, with Gson as the fallback. Transport and cache
errors are normalised into one `EasyVolleyError` shape.

The model has one module per concern:

- `Builders` has the four builder classes and the routing.
- `Requests` has the request object.
- `CacheOnly` has the cache-only worker.
- `Dispatchers` and `Adapters` handle response dispatch.
- `Errors` normalises errors.
- `Gzip`, `ResponseInterceptors` and `RequestInterceptors` are the interceptor chains, and
  `Chains` is the fold they share.
- `NetworkClients` holds the client's queues and interceptor lists.
- `Volley`, `Descriptors`, `Callbacks` and `EasyVolleyResponses` hold the data types.
- `Policy` holds the three policies.
- `Utf8` is the RFC 3629 encoding used for text bodies.

Classes exist where the source updates fields in place:

- the builders
- `NetworkRequest`
- `CacheOnlyDispatcher`
- `ResponseDispatcher` and its singleton slot
- the client's queues

Each of their methods names exactly the fields it changes. Adapters, error normalisation
and the decisions of the GZIP interceptor are functions.

Foreign code is gathered in one `Foreign.Oracles` value of arbitrary functions. The
foreign code is:

- gzip inflation
- charset decoding
- Volley's cache-header parsing
- org.json and Gson
- the interceptors and adapters that applications register

Where that code can fail, the failure is part of the value it returns. Inflation reports
an `IOException` with a flag. The org.json parsers and Gson return a `Result` carrying the
exception's message. The interceptors and type adapters that applications register are
assumed to return normally and never to return null; "## Left out" says what that leaves
out. `Gzip.Intercept` also requires that each chunk of a gzip-coded body fits the 4 KiB
buffer, which `read(buffer)` guarantees.

Callbacks are a record with an explicit result-type tag. The calls made on them are returned
as a log of `Invocation`s. Exceptions are values too:

- A builder's throw is `Outcome.Threw`.
- The null dereference in parsing a cached entry with no data is `ParseOutcome.NullData`, and
  it ends the cache-only worker as `RunEnd.Crashed`.
- An exception from Gson in `dispatch` is the `thrown` part of `Dispatchers.Dispatched`.

Response header names compare without regard to ASCII case, as Volley's header map does.
The map is keyed by the lower-cased name (`Volley.FoldCase`).

Facts about the code that shape the model:

- `NetworkPolicy` declares three values: `DEFAULT`, `NO_CACHE` and `OFFLINE`
  (`NetworkPolicy.java:3-14`).
- `CacheOnlyDispatcher.run` catches only `InterruptedException`
  (`CacheOnlyDispatcher.java:86-102`). A cached entry whose data is still null after the
  interceptors makes parsing dereference null (`NetworkRequest.java:144`), and
  that ends the worker (`RunEnd.Crashed`).
- The queues are lists that are taken from the front, in the order requests were added.
- `PostRequest.execute` runs no request interceptors and sets no retry policy, so the
  request keeps Volley's default (`PostRequest.java:81-90`). `NetworkRequestBuilder.execute`
  does both (`NetworkRequestBuilder.java:271-279`).
- Both interceptor chains are the one generic fold of `Chains.FoldLeft`. The lists come from
  `NetworkClients.NetworkClient`.

Shapes the declarations leave open are settled in one way:

- Dispatch and every adapter take `(callback, body, envelope)`, with the envelope optional.
- The one-argument `onSuccess` calls record no envelope. These are the JSON-array adapter
  and the Gson fallback.
- The JSON-array adapter's `onError(message)` is the error `from(message)` builds.

## Model

| member | source | states |
|---|---|---|
| Builders.NetworkRequestBuilder.constructor | EasyVolley/src/main/java/com/easyvolley/NetworkRequestBuilder.java:37-66 | a new builder has policy DEFAULT, the client's socket timeout, 1 retry and backoff 1.0, and no callback, headers, params, body or query |
| Builders.NetworkRequestBuilder.SetRequestText | EasyVolley/src/main/java/com/easyvolley/NetworkRequestBuilder.java:80-83 | the body becomes the UTF-8 encoding of the text; null keeps the previous body |
| Builders.NetworkRequestBuilder.SetRequestBytes | EasyVolley/src/main/java/com/easyvolley/NetworkRequestBuilder.java:90-94 | the body becomes the bytes as given; null keeps the previous body |
| Builders.NetworkRequestBuilder.AddParams | EasyVolley/src/main/java/com/easyvolley/NetworkRequestBuilder.java:103-107 | the params become the old params (or none) with every entry put in |
| Builders.NetworkRequestBuilder.AddParam | EasyVolley/src/main/java/com/easyvolley/NetworkRequestBuilder.java:117-121 | the params become the old params with the one entry put in |
| Builders.NetworkRequestBuilder.SetCallback | EasyVolley/src/main/java/com/easyvolley/NetworkRequestBuilder.java:131-134 | a null callback keeps the previous one |
| Builders.NetworkRequestBuilder.AddHeaders | EasyVolley/src/main/java/com/easyvolley/NetworkRequestBuilder.java:142-147 | the headers become the old headers with every entry put in |
| Builders.NetworkRequestBuilder.AddHeader | EasyVolley/src/main/java/com/easyvolley/NetworkRequestBuilder.java:156-161 | the headers become the old headers with the one entry put in |
| Builders.NetworkRequestBuilder.AddQueryParam | EasyVolley/src/main/java/com/easyvolley/NetworkRequestBuilder.java:170-176 | with no URL it throws (a null dereference) and changes nothing; otherwise it appends the parameter after the earlier ones |
| Builders.NetworkRequestBuilder.SetNetworkPolicy | EasyVolley/src/main/java/com/easyvolley/NetworkRequestBuilder.java:184-187 | a null policy keeps the previous one |
| Builders.NetworkRequestBuilder.SetSocketTimeoutMs | EasyVolley/src/main/java/com/easyvolley/NetworkRequestBuilder.java:195-198 | a non-positive timeout keeps the previous one |
| Builders.NetworkRequestBuilder.SetMaxNumRetries | EasyVolley/src/main/java/com/easyvolley/NetworkRequestBuilder.java:206-209 | a non-positive retry count keeps the previous one |
| Builders.NetworkRequestBuilder.SetBackoffMultiplier | EasyVolley/src/main/java/com/easyvolley/NetworkRequestBuilder.java:217-220 | a non-positive multiplier keeps the previous one |
| Builders.CurrentUrl | EasyVolley/src/main/java/com/easyvolley/NetworkRequestBuilder.java:68-73 | with no query parameter added, the URL is the one given, unchanged, or null; after one, it is the Uri builder's |
| Builders.NetworkRequestBuilder.GetUrl | EasyVolley/src/main/java/com/easyvolley/NetworkRequestBuilder.java:68-73 | the Uri builder's URL once a parameter was appended; before that the URL as given, with no query, or null |
| Builders.Appended | EasyVolley/src/main/java/com/easyvolley/NetworkRequestBuilder.java:170-176 | appending keeps the base and extends the query list by exactly the new parameter; a null URL gives nothing |
| Builders.AppendedInOrder | EasyVolley/src/main/java/com/easyvolley/builder/BaseRequest.java:106-112 | appending a run of parameters one call at a time gives the base URL with all of them after the earlier query, in call order; a null URL gives nothing |
| Builders.ErrorCalls | EasyVolley/src/main/java/com/easyvolley/NetworkRequestBuilder.java:238-242 | no call for a null callback; otherwise exactly one onError, with the error from(error) normalises |
| Builders.NetworkRequestBuilder.OnError | EasyVolley/src/main/java/com/easyvolley/NetworkRequestBuilder.java:238-242 | no call without a callback; otherwise exactly one call, which is onError with the error from(error) normalises |
| Builders.NetworkRequestBuilder.Add | EasyVolley/src/main/java/com/easyvolley/NetworkRequestBuilder.java:247-258 | OFFLINE goes only to the cache-only queue with shouldCache untouched; any other policy goes only to the network queue with shouldCache == (policy != NO_CACHE) |
| Builders.NetworkRequestBuilder.Built | EasyVolley/src/main/java/com/easyvolley/NetworkRequestBuilder.java:268-272 | the request built holds the builder's URL, method, headers over the defaults, params and body, and the builder's retry settings |
| Builders.NetworkRequestBuilder.Execute | EasyVolley/src/main/java/com/easyvolley/NetworkRequestBuilder.java:263-283 | with no URL it throws IllegalArgumentException and enqueues nothing; otherwise it enqueues exactly one fresh request, whose state is the built request after every request interceptor in list order, routed by policy |
| Chains.FoldAppend | EasyVolley/src/main/java/com/easyvolley/NetworkRequestBuilder.java:274-279 | running two chains one after the other equals running their concatenation, for the request and the response chains alike |
| Chains.FoldFirst | EasyVolley/src/main/java/com/easyvolley/NetworkRequest.java:135-140 | the first element of a chain sees the original value, and the rest see what it returned |
| RequestInterceptors.Intercept | EasyVolley/src/main/java/com/easyvolley/NetworkRequestBuilder.java:278 | the interceptor hands back a new request object whose state is the interceptor applied to the old state |
| RequestInterceptors.FoldFirst | EasyVolley/src/main/java/com/easyvolley/NetworkRequestBuilder.java:277-279 | the first request interceptor sees the request as built, and the rest see what it returned |
| RequestInterceptors.InterceptAll | EasyVolley/src/main/java/com/easyvolley/NetworkRequestBuilder.java:274-279 | the request the loop ends with has the state of the fold of the whole list over the initial state |
| Policy.Route | EasyVolley/src/main/java/com/easyvolley/builder/BaseRequest.java:160-171 | CacheOnly exactly for OFFLINE; otherwise Network with caching exactly for DEFAULT |
| Builders.AddRouted | EasyVolley/src/main/java/com/easyvolley/builder/BaseRequest.java:160-171 | OFFLINE goes only to the cache-only queue with shouldCache untouched; any other policy goes only to the network queue with shouldCache == (policy != NO_CACHE) |
| Builders.BaseRequest.constructor | EasyVolley/src/main/java/com/easyvolley/builder/BaseRequest.java:43-47 | a new base request has the URL given, policy DEFAULT, and no callback, headers or query |
| Builders.BaseRequest.SetCallback | EasyVolley/src/main/java/com/easyvolley/builder/BaseRequest.java:67-70 | a null callback keeps the previous one |
| Builders.BaseRequest.AddHeaders | EasyVolley/src/main/java/com/easyvolley/builder/BaseRequest.java:78-83 | the headers become the old headers with every entry put in |
| Builders.BaseRequest.AddHeader | EasyVolley/src/main/java/com/easyvolley/builder/BaseRequest.java:92-97 | the headers become the old headers with the one entry put in |
| Builders.BaseRequest.AddQueryParam | EasyVolley/src/main/java/com/easyvolley/builder/BaseRequest.java:106-112 | with no URL it throws and changes nothing; otherwise it appends the parameter |
| Builders.BaseRequest.SetNetworkPolicy | EasyVolley/src/main/java/com/easyvolley/builder/BaseRequest.java:120-123 | a null policy keeps the previous one |
| Builders.PolicyIsLastNonNull | EasyVolley/src/main/java/com/easyvolley/builder/BaseRequest.java:120-133 | after any sequence of setNetworkPolicy calls, a fresh base request reports LastNonNull of the calls: the last non-null policy passed, or DEFAULT |
| Builders.LastNonNullIsLast | EasyVolley/src/main/java/com/easyvolley/builder/BaseRequest.java:120-123 | a non-null call with only null calls after it decides the policy |
| Builders.AllNullKeepsPolicy | EasyVolley/src/main/java/com/easyvolley/builder/BaseRequest.java:120-123 | calls that all pass null leave the policy as it started |
| Builders.QueryParamsInOrder | EasyVolley/src/main/java/com/easyvolley/builder/BaseRequest.java:106-112 | after any sequence of addQueryParam calls, a fresh base request for a URL reports that URL with exactly those parameters, in call order |
| Builders.BaseRequest.GetUrl | EasyVolley/src/main/java/com/easyvolley/builder/BaseRequest.java:49-54 | the Uri builder's URL once a parameter was appended; before that the URL as given, with no query, or null |
| Builders.BaseRequest.GetHeaders | EasyVolley/src/main/java/com/easyvolley/builder/BaseRequest.java:56-58 | the headers added so far, null when none were |
| Builders.BaseRequest.GetNetworkPolicy | EasyVolley/src/main/java/com/easyvolley/builder/BaseRequest.java:131-133 | the policy currently set |
| Builders.BaseRequest.OnError | EasyVolley/src/main/java/com/easyvolley/builder/BaseRequest.java:150-154 | no call without a callback; otherwise exactly one call, which is onError with the error from(error) normalises |
| Builders.BaseRequest.Add | EasyVolley/src/main/java/com/easyvolley/builder/BaseRequest.java:160-171 | the same routing as the builder's add |
| Maps.PutAll | EasyVolley/src/main/java/com/easyvolley/builder/BaseRequest.java:78-83 | after putAll, every new entry is present with its value, and any other key is present exactly when it was before, with its old value |
| Maps.Put | EasyVolley/src/main/java/com/easyvolley/builder/BaseRequest.java:92-97 | after put, the key holds the new value, and every other key is as before |
| Maps.PutIsPutAllOfOne | EasyVolley/src/main/java/com/easyvolley/builder/PostRequest.java:70-74 | putting one entry is putting all of a one-entry map |
| Builders.PostRequest.constructor | EasyVolley/src/main/java/com/easyvolley/builder/PostRequest.java:24-26 | a new POST builder has a fresh base with the URL given, and no params or body |
| Builders.PostRequest.SetRequestText | EasyVolley/src/main/java/com/easyvolley/builder/PostRequest.java:33-36 | the body becomes the UTF-8 encoding of the text; null keeps the previous body |
| Builders.PostRequest.SetRequestBytes | EasyVolley/src/main/java/com/easyvolley/builder/PostRequest.java:43-47 | the body becomes the bytes as given; null keeps the previous body |
| Builders.PostRequest.AddParams | EasyVolley/src/main/java/com/easyvolley/builder/PostRequest.java:56-60 | the params become the old params with every entry put in |
| Builders.PostRequest.AddParam | EasyVolley/src/main/java/com/easyvolley/builder/PostRequest.java:70-74 | the params become the old params with the one entry put in |
| Builders.PostRequest.Execute | EasyVolley/src/main/java/com/easyvolley/builder/PostRequest.java:81-90 | with no URL it throws and enqueues nothing; otherwise one fresh POST with the builder's headers, params and body is routed by policy |
| Builders.GetRequest.constructor | EasyVolley/src/main/java/com/easyvolley/builder/GetRequest.java:19-21 | a new GET builder has a fresh base with the URL given |
| Builders.GetRequest.Execute | EasyVolley/src/main/java/com/easyvolley/builder/GetRequest.java:27-38 | with no URL it throws; otherwise a fresh GET with the builder's headers, no params and no body is appended to Volley's request queue whatever the policy, and shouldCache stays true; neither routed queue changes |
| Builders.OfflineGetGoesToNetwork | EasyVolley/src/main/java/com/easyvolley/builder/GetRequest.java:37 | an OFFLINE GET lands on the request queue and the cache-only queue stays empty |
| Builders.NoCacheGetStillCached | EasyVolley/src/main/java/com/easyvolley/builder/GetRequest.java:34-37 | a NO_CACHE GET is still marked to be cached |
| Builders.GetRequest.ExecuteRouted | EasyVolley/src/main/java/com/easyvolley/builder/GetRequest.java:27-38 | the corrected execute: the same GET routed through add, so OFFLINE reaches only the cache-only queue and NO_CACHE turns caching off |
| Builders.OfflineGetRoutedToCache | EasyVolley/src/main/java/com/easyvolley/builder/GetRequest.java:37 | routed, an OFFLINE GET lands only on the cache-only queue |
| Builders.NoCacheGetRoutedUncached | EasyVolley/src/main/java/com/easyvolley/builder/GetRequest.java:37 | routed, a NO_CACHE GET lands on the network queue with caching off |
| NetworkClients.NetworkClient.AddToRequestQueue | EasyVolley/src/main/java/com/easyvolley/builder/GetRequest.java:37 | the request is appended to Volley's request queue |
| NetworkClients.NetworkClient.AddNetworkRequest | EasyVolley/src/main/java/com/easyvolley/NetworkRequestBuilder.java:257 | the request is appended to the network queue |
| NetworkClients.NetworkClient.AddCacheOnlyRequest | EasyVolley/src/main/java/com/easyvolley/NetworkRequestBuilder.java:249 | the request is appended to the cache-only queue |
| NetworkClients.NetworkClient.constructor | EasyVolley/src/main/java/com/easyvolley/NetworkClient.java:68-73 | a new client holds the interceptor lists given, and its three queues are empty |
| Descriptors.InitialHeaders | EasyVolley/src/main/java/com/easyvolley/NetworkRequest.java:46-80 | Accept-Encoding is always present and is gzip unless supplied; supplied headers are all present with their values, overriding the default, and there are no other keys; null headers give exactly the default |
| Descriptors.InitialParams | EasyVolley/src/main/java/com/easyvolley/NetworkRequest.java:83-85 | params are empty when null was passed, and otherwise equal the supplied map |
| Descriptors.Initial | EasyVolley/src/main/java/com/easyvolley/NetworkRequest.java:66-88 | a new request holds the method, URL and body as given, the initial headers and params, and Volley's starting state: cached, default retry policy, not canceled, no cache entry and no response |
| Requests.NetworkRequest.constructor | EasyVolley/src/main/java/com/easyvolley/NetworkRequest.java:66-88 | the new object's state is Initial of its arguments, so the body is exactly the one passed and there is no network response yet |
| Requests.NetworkRequest.Get | EasyVolley/src/main/java/com/easyvolley/NetworkRequest.java:91-96 | the GET constructor gives method GET, empty params and a null body |
| Requests.NetworkRequest.FromData | EasyVolley/src/main/java/com/easyvolley/NetworkRequestBuilder.java:278 | the object an interceptor hands back holds exactly the state it was given |
| Requests.NetworkRequest.GetBody | EasyVolley/src/main/java/com/easyvolley/NetworkRequest.java:113-116 | the raw body of the request's current state |
| Requests.NetworkRequest.GetParams | EasyVolley/src/main/java/com/easyvolley/NetworkRequest.java:119-122 | the form parameters of the request's current state |
| Requests.NetworkRequest.GetNetworkResponse | EasyVolley/src/main/java/com/easyvolley/NetworkRequest.java:155-157 | the response recorded in the request's current state, null before one is parsed |
| Requests.NetworkRequest.SetShouldCache | EasyVolley/src/main/java/com/easyvolley/NetworkRequestBuilder.java:254 | the caching flag becomes the value given |
| Requests.NetworkRequest.SetRetryPolicy | EasyVolley/src/main/java/com/easyvolley/NetworkRequestBuilder.java:271-272 | the retry policy becomes the one given |
| Requests.NetworkRequest.SetCacheEntry | EasyVolley/src/main/java/com/easyvolley/dispatcher/CacheOnlyDispatcher.java:132 | the entry is attached to the request |
| Requests.NetworkRequest.Cancel | EasyVolley/src/main/java/com/easyvolley/dispatcher/CacheOnlyDispatcher.java:116 | the request is canceled |
| Requests.WithEtag | EasyVolley/src/main/java/com/easyvolley/NetworkRequest.java:100-109 | with a cached, non-empty etag, If-None-Match carries it and every other header is kept; otherwise the headers are unchanged |
| Requests.WithEtagIdempotent | EasyVolley/src/main/java/com/easyvolley/NetworkRequest.java:103-106 | asking again with the same cache adds nothing more |
| Requests.NetworkRequest.GetHeaders | EasyVolley/src/main/java/com/easyvolley/NetworkRequest.java:100-109 | the request's headers are updated with the etag and returned, so the header persists in later calls |
| Requests.Decode | EasyVolley/src/main/java/com/easyvolley/NetworkRequest.java:142-149 | a null body is the null-dereference case; otherwise the text is the charset decoding of the body under its headers, with Volley's cache entry for the response |
| Requests.NetworkRequest.ParseNetworkResponse | EasyVolley/src/main/java/com/easyvolley/NetworkRequest.java:130-150 | it records the response as received (before any interceptor), and the result decodes what the last response interceptor returned after all ran in list order |
| ResponseInterceptors.FoldFirst | EasyVolley/src/main/java/com/easyvolley/NetworkRequest.java:138-140 | the first response interceptor sees the original response, and the rest see what it returned |
| ResponseInterceptors.Apply | EasyVolley/src/main/java/com/easyvolley/NetworkRequest.java:138-140 | the built-in gzip interceptor keeps the status code and the header list |
| Gzip.Intercepted | EasyVolley/src/main/java/com/easyvolley/interceptors/impl/GzipInterceptor.java:22-56 | status, not-modified, time and headers always survive; a null body, a Content-Encoding (any case of the name) missing or not exactly "gzip", or an IOException leave the response unchanged; otherwise the body is the in-order concatenation of the inflated chunks |
| Gzip.Read | EasyVolley/src/main/java/com/easyvolley/interceptors/impl/GzipInterceptor.java:37 | one read fills the front of the buffer with the next chunk and returns its length |
| Gzip.Intercept | EasyVolley/src/main/java/com/easyvolley/interceptors/impl/GzipInterceptor.java:22-56 | the buffer-copy loop produces exactly Intercepted of the response |
| Gzip.ConcatAppend | EasyVolley/src/main/java/com/easyvolley/interceptors/impl/GzipInterceptor.java:36-41 | writing one run of chunks and then another gives what writing their concatenation gives |
| Gzip.LowerCaseNameInflated | EasyVolley/src/main/java/com/easyvolley/interceptors/impl/GzipInterceptor.java:24-26 | a gzip body under the header name content-encoding is inflated like one under Content-Encoding |
| Volley.HeaderMap | EasyVolley/src/main/java/com/easyvolley/interceptors/impl/GzipInterceptor.java:24 | the header map's keys are exactly the lower-cased names of the header list |
| Volley.LastOccurrenceWins | EasyVolley/src/main/java/com/easyvolley/interceptors/impl/GzipInterceptor.java:24 | a name maps to the value of its last occurrence in the list under any spelling |
| Volley.HeaderMapValues | EasyVolley/src/main/java/com/easyvolley/interceptors/impl/GzipInterceptor.java:24 | every value in the map is the value of some header whose name equals the key up to case |
| Volley.HeaderLookup | EasyVolley/src/main/java/com/easyvolley/interceptors/impl/GzipInterceptor.java:24 | headers.get(name) is null exactly when no header's name equals name up to case, and otherwise it is the value of such a header |
| Volley.ResponseOf | EasyVolley/src/main/java/com/easyvolley/dispatcher/CacheOnlyDispatcher.java:140-141 | a response built from data and headers is a 200, not "not modified", 0 ms, with that data and those headers |
| Volley.ErrorWithMessage | EasyVolley/src/main/java/com/easyvolley/dispatcher/CacheOnlyDispatcher.java:125 | an error made from a message alone has that message, time 0 and no response |
| CacheOnly.CachedResponse | EasyVolley/src/main/java/com/easyvolley/dispatcher/CacheOnlyDispatcher.java:140-141 | the response rebuilt from a cache entry carries the entry's data and response headers |
| CacheOnly.TriageOf | EasyVolley/src/main/java/com/easyvolley/dispatcher/CacheOnlyDispatcher.java:116-136 | exactly one of dropped (canceled), missed (no entry), expired, or hit holds, and the last two carry the entry |
| CacheOnly.CrashesIsNullHit | EasyVolley/src/main/java/com/easyvolley/dispatcher/CacheOnlyDispatcher.java:139-144 | a request ends the worker exactly when it is a fresh cache hit whose response, after the interceptors, decodes to the null-data case |
| CacheOnly.Item | EasyVolley/src/main/java/com/easyvolley/dispatcher/CacheOnlyDispatcher.java:109-145 | at most one delivery, always for the request taken; none if canceled; exactly one unless canceled or processing throws; a throw delivers nothing and happens exactly when Crashes holds |
| CacheOnly.MissIsNoCacheError | EasyVolley/src/main/java/com/easyvolley/dispatcher/CacheOnlyDispatcher.java:121-127 | a miss delivers exactly one "No Cache Available" error, which normalises with status -1 |
| CacheOnly.ExpiredIsExpiredError | EasyVolley/src/main/java/com/easyvolley/dispatcher/CacheOnlyDispatcher.java:130-136 | an expired entry delivers exactly one "Cache has expired" error, which normalises with status -1 |
| CacheOnly.HitIsParsedFromEntry | EasyVolley/src/main/java/com/easyvolley/dispatcher/CacheOnlyDispatcher.java:139-144 | a fresh entry delivers exactly one response, decoded from the entry's data and headers after the interceptors; the worker dies only when that data is null |
| CacheOnly.Delivered | EasyVolley/src/main/java/com/easyvolley/dispatcher/CacheOnlyDispatcher.java:93-101 | the deliveries of a run of requests are at most one per request |
| CacheOnly.DeliveredSnoc | EasyVolley/src/main/java/com/easyvolley/dispatcher/CacheOnlyDispatcher.java:93-101 | processing one more request appends its deliveries after the earlier ones, in queue order |
| CacheOnly.CanceledFlags | EasyVolley/src/main/java/com/easyvolley/dispatcher/CacheOnlyDispatcher.java:116 | one cancel flag per queued request, in queue order, each that request's flag |
| CacheOnly.CacheOnlyDispatcher.constructor | EasyVolley/src/main/java/com/easyvolley/dispatcher/CacheOnlyDispatcher.java:68-74 | a new worker holds the queue and cache given and the client's response-interceptor list, and has delivered nothing, not quit and not initialised |
| CacheOnly.CacheOnlyDispatcher.Quit | EasyVolley/src/main/java/com/easyvolley/dispatcher/CacheOnlyDispatcher.java:80-83 | quit sets the flag |
| CacheOnly.CacheOnlyDispatcher.ProcessRequest | EasyVolley/src/main/java/com/easyvolley/dispatcher/CacheOnlyDispatcher.java:109-145 | it removes exactly the head, and the cache is unchanged; the deliveries grow by Item of the head; an expired entry is attached to the request; a hit records the cached response on it; other queued requests are untouched |
| CacheOnly.CacheOnlyDispatcher.TakeNext | EasyVolley/src/main/java/com/easyvolley/dispatcher/CacheOnlyDispatcher.java:93-95 | one loop step removes the next request and appends its deliveries, in queue order |
| CacheOnly.CacheOnlyDispatcher.Step | EasyVolley/src/main/java/com/easyvolley/dispatcher/CacheOnlyDispatcher.java:93-101 | one signal takes at most one request; a take on an empty queue blocks; a take answers the head and crashes exactly when Crashes holds for it; an interrupt stops only with the quit flag set; a quit sets the flag and stops |
| CacheOnly.CacheOnlyDispatcher.RunLoop | EasyVolley/src/main/java/com/easyvolley/dispatcher/CacheOnlyDispatcher.java:93-102 | the requests taken are a prefix of the queue, answered in order; it stops only with the quit flag set; without a quit call the flag stays unset; it crashes exactly when the last request taken throws, and no earlier one did |
| CacheOnly.CacheOnlyDispatcher.Run | EasyVolley/src/main/java/com/easyvolley/dispatcher/CacheOnlyDispatcher.java:86-102 | the cache is initialised exactly once and never written; the requests taken are a prefix of the queue, answered in order; the run stops only with the quit flag set; the flag never resets, and without a quit call it stays unset and the run does not stop; the run crashes exactly when the last request taken threw, and no earlier request threw |
| Dispatchers.ResponseDispatcher.constructor | EasyVolley/src/main/java/com/easyvolley/dispatcher/ResponseDispatcher.java:41-47 | the registry holds exactly String, JSONObject and JSONArray, each with its built-in adapter |
| Dispatchers.ResponseDispatcher.RegisterTypeAdapter | EasyVolley/src/main/java/com/easyvolley/dispatcher/ResponseDispatcher.java:55-57 | the type now maps to the adapter, overriding any earlier registration; every other type keeps its entry |
| Dispatchers.DispatcherSlot.GetInstance | EasyVolley/src/main/java/com/easyvolley/dispatcher/ResponseDispatcher.java:60-66 | the first call creates a dispatcher with the built-in registry; later calls return the stored one |
| Dispatchers.GetInstanceTwice | EasyVolley/src/main/java/com/easyvolley/dispatcher/ResponseDispatcher.java:60-66 | two consecutive calls return the same dispatcher |
| Dispatchers.DispatchWith | EasyVolley/src/main/java/com/easyvolley/dispatcher/ResponseDispatcher.java:69-84 | no call and no exception for a null callback; an exception escapes exactly when the callback's type has no adapter and Gson fails, and then no call is made; a type with a built-in adapter is called exactly once |
| Dispatchers.ResponseDispatcher.Dispatch | EasyVolley/src/main/java/com/easyvolley/dispatcher/ResponseDispatcher.java:69-84 | with the dispatcher's own registry: a null callback is never called; an exception escapes only for a type with no adapter, before any call; a type whose adapter is built in is called exactly once and never throws |
| Dispatchers.NullCallbackNoCalls | EasyVolley/src/main/java/com/easyvolley/dispatcher/ResponseDispatcher.java:69-70 | dispatch with a null callback makes no call and throws nothing |
| Dispatchers.RegisteredAdapterWins | EasyVolley/src/main/java/com/easyvolley/dispatcher/ResponseDispatcher.java:76-80 | with an adapter registered for the type, the calls are that adapter's calls, and the Gson decoder is not consulted |
| Dispatchers.FallbackDecodes | EasyVolley/src/main/java/com/easyvolley/dispatcher/ResponseDispatcher.java:83 | with no adapter registered, exactly one onSuccess carries Gson's decoding of the body; when Gson throws, no call is made and its exception escapes |
| Dispatchers.BuiltinRegistryDeliversOnce | EasyVolley/src/main/java/com/easyvolley/dispatcher/ResponseDispatcher.java:41-84 | with the built-in registry, a dispatch that does not throw calls a non-null callback exactly once and a null one never; only a POJO callback type can make it throw |
| Adapters.StringProcess | EasyVolley/src/main/java/com/easyvolley/dispatcher/adapter/StringTypeAdapter.java:16-20 | no call for a null callback; otherwise exactly one onSuccess with the body unchanged and the envelope received, and never onError |
| Adapters.JsonObjectProcess | EasyVolley/src/main/java/com/easyvolley/dispatcher/adapter/JsonObjectTypeAdapter.java:22-31 | no call for a null callback; otherwise exactly one call, which is onSuccess exactly when the body parses; success carries the parsed object and the envelope; an error is from(message) with status -1 |
| Adapters.JsonArrayProcess | EasyVolley/src/main/java/com/easyvolley/dispatcher/adapter/JsonArrayTypeAdapter.java:20-29 | no call for a null callback; otherwise exactly one call, which is onSuccess exactly when the body parses; success carries the parsed array; an error is from(message) of the parser's message, so it carries that message with status -1 |
| Adapters.Process | EasyVolley/src/main/java/com/easyvolley/dispatcher/TypeAdapter.java:16 | no adapter calls a null callback, and each built-in adapter calls any other callback exactly once |
| Errors.WithMessage | EasyVolley/src/main/java/com/easyvolley/EasyVolleyError.java:67-69 | a message alone gives time 0, status -1, no data and no headers |
| Errors.WithResponse | EasyVolley/src/main/java/com/easyvolley/EasyVolleyError.java:55-61 | an error with a response copies its message and time, and the response's status, data and headers |
| Errors.From | EasyVolley/src/main/java/com/easyvolley/EasyVolleyError.java:77-88 | null gives ("Something went wrong", 0, -1, null, null); no response keeps message and time with status -1 and no data or headers; with a response it copies status, data and headers |
| Errors.FromMessage | EasyVolley/src/main/java/com/easyvolley/EasyVolleyError.java:96-98 | from(m) is (m, 0, -1, null, null) |
| Errors.MessageErrorsAgree | EasyVolley/src/main/java/com/easyvolley/EasyVolleyError.java:77-98 | normalising a Volley error made from a bare message equals from(message) |
| EasyVolleyResponses.FromNetworkResponse | EasyVolley/src/main/java/com/easyvolley/EasyVolleyResponse.java:61-67 | the envelope copies the response's status, data, headers, not-modified flag and time |
| Utf8.EncodeScalar | EasyVolley/src/main/java/com/easyvolley/builder/PostRequest.java:34 | each character encodes to one to four bytes |
| Utf8.Encode | EasyVolley/src/main/java/com/easyvolley/builder/PostRequest.java:34 | a string encodes to between one and four bytes per character |
| Utf8.DecodeEncodeScalar | EasyVolley/src/main/java/com/easyvolley/builder/PostRequest.java:34 | a character's encoding starts with a lead byte that announces its length, and decodes back to the character |
| Utf8.DecodeEncode | EasyVolley/src/main/java/com/easyvolley/builder/PostRequest.java:34 | decoding the UTF-8 encoding of a string gives the string back |
| Utf8.EncodeInjective | EasyVolley/src/main/java/com/easyvolley/NetworkRequestBuilder.java:81 | different texts never give the same body |

## Left out

- Threads, the blocking `take()`, `interrupt()`, thread priority and `volatile` are not modelled. The worker's loop is run sequentially, over a list of signals that say what ends each `take()`.
- `NetworkClient.java` does not define `addNetworkRequest`, `addCacheOnlyRequest`, `getRequestInterceptor` or `getResponseInterceptor`. Their targets are the plain lists of `NetworkClients.NetworkClient`. The lazy client singleton, the disk cache, the network stack and `setDiskCacheSizeBytes` are I/O setup and are not modelled.
- The queue the cache-only worker drains is given to it directly. Its link to `addCacheOnlyRequest` is not modelled.
- GZIP inflation (RFC 1952), charset lookup and decoding, cache-header parsing, org.json, Gson and `Cache.Entry.isExpired` are foreign code. They are oracles or an `expired` field.
- Reflection in `Callback.getGenericType` is not modelled. The result type is an explicit tag.
- Android `Uri` parsing, encoding and rendering are not modelled. The URL is its base string plus the ordered list of appended parameters, and that value is also the cache key.
- Response header maps are keyed by the lower-cased name. Volley's `TreeMap` keeps the first spelling it saw as the key, which no property here depends on. Request header maps are `HashMap`s and stay case-sensitive.
- A null map passed to `addHeaders` or `addParams` is not modelled. It throws in the source, but here those arguments are never null. A null key or value passed to `addHeader` or `addParam` is not modelled either: names and values are `string`s here, while Java's `HashMap` accepts null for both.
- Java arrays passed as bodies are values here, so a caller's later writes to the array are not modelled.
- Java strings with unpaired surrogates are not modelled. A Dafny `char` is a Unicode scalar value, so the `?` replacement `getBytes` makes for them never arises.
- `CacheOnly.Item`, `Dispatchers.DispatchWith` and `Dispatchers.ResponseDispatcher.Dispatch` take the interceptors and type adapters that applications register to return normally and never to return null. A response interceptor that throws or returns null makes `parseNetworkResponse` throw, and that ends the cache-only worker. A registered type adapter that throws lets the exception escape `dispatch`. Neither is modelled: `Item`'s "a throw happens exactly when `Crashes` holds" and `Dispatch`'s "an exception escapes only for a type with no adapter" hold only for interceptors and adapters that return normally.
- Request interceptors return new request objects whose state is the interceptor oracle applied to the old state. An interceptor that mutates and returns the same object, or returns null, is not modelled.
- `Gzip.Intercept` requires each inflated chunk of a gzip-coded body to fit the 4 KiB buffer. This is what `read(buffer)` guarantees, not something callers must arrange.
- The backoff multiplier is a real number, not a Java `float`.
- `NetworkClient.defaultSocketTimeoutMs` is not part of this model. The builder's constructor takes the default timeout as a parameter.
- `onResponse` in the builders is not modelled, and neither are the dispatch envelope's lifetime and the response listener's binding after interception. What `dispatch` does with a body is `Dispatchers.ResponseDispatcher.Dispatch`.
- The cache-only worker reads the client's response-interceptor list once, when it is constructed. `parseNetworkResponse` reads it again for each request, so a registration made while the worker runs is not modelled.
- `RequestInterceptors.Fold`, `ResponseInterceptors.Fold`, `Gzip.Concat` and `CacheOnly.Crashes` carry no contract of their own. The lemmas beside them (`Chains.FoldFirst`, `Chains.FoldAppend`, `Gzip.ConcatAppend`, `CacheOnly.CrashesIsNullHit`) state what they mean.
- Logging, debug markers and `toString` are not modelled.

## Findings

| source | as written | input that shows it | evidently intended | confidence | as-written member | corrected member |
|---|---|---|---|---|---|---|
| EasyVolley/src/main/java/com/easyvolley/builder/GetRequest.java:37 | `GetRequest.execute` appends the request to Volley's request queue directly and skips `add`. The network policy is ignored: an `OFFLINE` GET goes to the network and never to the cache-only queue, and a `NO_CACHE` GET keeps `shouldCache` true | `NetworkClient.get(url).setNetworkPolicy(OFFLINE).execute()` | route through `add(request)`, as `PostRequest.execute` does, so that `OFFLINE` never reaches the network | not executed | Builders.GetRequest.Execute, Builders.OfflineGetGoesToNetwork, Builders.NoCacheGetStillCached | Builders.GetRequest.ExecuteRouted, Builders.OfflineGetRoutedToCache, Builders.NoCacheGetRoutedUncached |
