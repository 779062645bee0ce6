/**
 * The queues and interceptor lists the builders hand requests to: Volley's request queue
 * (`getRequestQueue().add`), the network queue behind `addNetworkRequest`, the cache-only
 * queue behind `addCacheOnlyRequest`, and the registered interceptors.
 */
module NetworkClients {
  import opened RequestInterceptors
  import opened ResponseInterceptors
  import opened Requests

  class NetworkClient {
    var requestQueue: seq<NetworkRequest>
    var networkQueue: seq<NetworkRequest>
    var cacheOnlyQueue: seq<NetworkRequest>
    var requestInterceptors: seq<RequestInterceptor>
    var responseInterceptors: seq<ResponseInterceptor>

    constructor (requestInterceptors: seq<RequestInterceptor>, responseInterceptors: seq<ResponseInterceptor>)
      ensures this.requestInterceptors == requestInterceptors
      ensures this.responseInterceptors == responseInterceptors
      ensures requestQueue == [] && networkQueue == [] && cacheOnlyQueue == []
    {
      this.requestInterceptors := requestInterceptors;
      this.responseInterceptors := responseInterceptors;
      requestQueue, networkQueue, cacheOnlyQueue := [], [], [];
    }

    /** `NetworkClient.getRequestQueue().add(request)`. */
    method AddToRequestQueue(r: NetworkRequest)
      modifies this`requestQueue
      ensures requestQueue == old(requestQueue) + [r]
    {
      requestQueue := requestQueue + [r];
    }

    /** `NetworkClient.addNetworkRequest(request)`. */
    method AddNetworkRequest(r: NetworkRequest)
      modifies this`networkQueue
      ensures networkQueue == old(networkQueue) + [r]
    {
      networkQueue := networkQueue + [r];
    }

    /** `NetworkClient.addCacheOnlyRequest(request)`. */
    method AddCacheOnlyRequest(r: NetworkRequest)
      modifies this`cacheOnlyQueue
      ensures cacheOnlyQueue == old(cacheOnlyQueue) + [r]
    {
      cacheOnlyQueue := cacheOnlyQueue + [r];
    }
  }
}
