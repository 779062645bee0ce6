/**
 * The behaviour of code outside the core that the core calls: gzip inflation, charset
 * decoding, Volley's cache-header parsing, org.json, Gson, and the interceptors and type
 * adapters applications register. Each is an arbitrary function; where the collaborator
 * can fail (inflation, the JSON parsers, Gson) its failure is part of the value it returns.
 */
module Foreign {
  import opened Wrappers
  import opened Volley
  import opened Descriptors
  import opened Callbacks
  import opened EasyVolleyResponses

  /**
   * What reading a `GZIPInputStream` to its end yields: the chunks each `read` returned,
   * in order, and whether an `IOException` ended the reading instead of end of stream.
   */
  datatype InflateRun = InflateRun(chunks: seq<Bytes>, failed: bool)

  datatype Oracles = Oracles(
    inflate: Bytes -> InflateRun,
    /** `new String(data, HttpHeaderParser.parseCharset(headers, "UTF-8"))` with its fallback to the platform charset. */
    decodeBody: (Bytes, map<string, string>) -> string,
    parseCacheHeaders: NetworkResponse -> Option<CacheEntry>,
    /** `new JSONObject(text)`: the object, or the message of the `JSONException`. */
    parseJsonObject: string -> Result<ObjectHandle, string>,
    /** `new JSONArray(text)`: the array, or the message of the `JSONException`. */
    parseJsonArray: string -> Result<ObjectHandle, string>,
    /** `gson.create().fromJson(text, type)`: the decoded object, or the message of the exception Gson throws. */
    gsonFromJson: (string, TypeTag) -> Result<ObjectHandle, string>,
    /** A registered `RequestInterceptor`, by its position-independent identity. */
    requestInterceptor: (nat, RequestData) -> RequestData,
    /** A registered user `ResponseInterceptor`, by identity. */
    responseInterceptor: (nat, NetworkResponse) -> NetworkResponse,
    /** A user-registered `TypeAdapter`, by identity: the calls it makes into the callback. */
    typeAdapter: (nat, Callback, string, Option<EasyVolleyResponse>) -> seq<Invocation>)
}
