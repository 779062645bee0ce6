/** The request-interceptor chain the builder runs before enqueueing. */
module RequestInterceptors {
  import opened Descriptors
  import opened Foreign
  import opened Requests
  import Chains

  /** A registered `RequestInterceptor`, known by identity. */
  datatype RequestInterceptor = RequestInterceptor(id: nat)

  /** One interceptor's step: `i.intercept(request)` on the request's data. */
  function Step(o: Oracles): (RequestInterceptor, RequestData) -> RequestData {
    (i: RequestInterceptor, d: RequestData) => o.requestInterceptor(i.id, d)
  }

  /**
   * `for (i : interceptors) request = i.intercept(request)` on the request's data: the
   * first interceptor sees the request as built, and every later one what the one before
   * it returned.
   */
  function Fold(chain: seq<RequestInterceptor>, d: RequestData, o: Oracles): RequestData {
    Chains.FoldLeft(chain, Step(o), d)
  }

  /** The first interceptor sees the original value, and every later one what the one before it returned. */
  lemma FoldFirst(i: RequestInterceptor, rest: seq<RequestInterceptor>, d: RequestData, o: Oracles)
    ensures Fold([i] + rest, d, o) == Fold(rest, o.requestInterceptor(i.id, d), o)
  {
    Chains.FoldFirst(i, rest, Step(o), d);
  }

  /** `i.intercept(request)`: the request object the interceptor hands back. */
  method Intercept(i: RequestInterceptor, r: NetworkRequest, o: Oracles) returns (r': NetworkRequest)
    ensures fresh(r')
    ensures r'.Snapshot() == o.requestInterceptor(i.id, r.Snapshot())
  {
    r' := new NetworkRequest.FromData(o.requestInterceptor(i.id, r.Snapshot()));
  }

  /** `for (i : interceptors) request = i.intercept(request)`: the request the last interceptor returned. */
  method InterceptAll(chain: seq<RequestInterceptor>, r: NetworkRequest, o: Oracles) returns (last: NetworkRequest)
    ensures last == r || fresh(last)
    ensures last.Snapshot() == Fold(chain, r.Snapshot(), o)
  {
    last := r;
    var k := 0;
    while k < |chain|
      invariant 0 <= k <= |chain|
      invariant last == r || fresh(last)
      invariant last.Snapshot() == Fold(chain[..k], r.Snapshot(), o)
    {
      assert chain[..k + 1][..k] == chain[..k];
      last := Intercept(chain[k], last, o);
      k := k + 1;
    }
    assert chain[..|chain|] == chain;
  }
}
