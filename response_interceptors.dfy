/** The response-interceptor chain: every registered interceptor runs once, in registration order. */
module ResponseInterceptors {
  import opened Volley
  import opened Foreign
  import Gzip
  import Chains

  /** The built-in gzip interceptor, or one an application registered. */
  datatype ResponseInterceptor = GzipInterceptor | UserResponseInterceptor(id: nat)

  /** `i.intercept(response)`. The built-in gzip interceptor never changes the status or the headers. */
  function Apply(i: ResponseInterceptor, r: NetworkResponse, o: Oracles): (out: NetworkResponse)
    ensures i.GzipInterceptor? ==> out.statusCode == r.statusCode && out.allHeaders == r.allHeaders
  {
    match i
    case GzipInterceptor => Gzip.Intercepted(r, o.inflate)
    case UserResponseInterceptor(id) => o.responseInterceptor(id, r)
  }

  function Step(o: Oracles): (ResponseInterceptor, NetworkResponse) -> NetworkResponse {
    (i: ResponseInterceptor, r: NetworkResponse) => Apply(i, r, o)
  }

  /**
   * `for (i : interceptors) response = i.intercept(response)`: the first interceptor sees
   * the original response, and every later one what the one before it returned.
   */
  function Fold(chain: seq<ResponseInterceptor>, r: NetworkResponse, o: Oracles): NetworkResponse {
    Chains.FoldLeft(chain, Step(o), r)
  }

  /** The first interceptor sees the original value, and every later one what the one before it returned. */
  lemma FoldFirst(i: ResponseInterceptor, rest: seq<ResponseInterceptor>, r: NetworkResponse, o: Oracles)
    ensures Fold([i] + rest, r, o) == Fold(rest, Apply(i, r, o), o)
  {
    Chains.FoldFirst(i, rest, Step(o), r);
  }
}
