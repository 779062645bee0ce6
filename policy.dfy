/** The per-request cache policy and the routing decision both builders take on it. */
module Policy {

  /** `NetworkPolicy`: the three values the enum declares. */
  datatype NetworkPolicy = NoCache | Offline | Default

  /** Where `add` hands a request: the cache-only queue, or the network queue with a cache-write flag. */
  datatype Path = CacheOnly | Network(shouldCache: bool)

  /**
   * The routing decision: OFFLINE requests go to the cache-only queue only; every other
   * policy goes to the network queue only, and the response is written to the cache
   * unless the policy is NO_CACHE.
   */
  function Route(p: NetworkPolicy): (path: Path)
    ensures path.CacheOnly? <==> p == Offline
    ensures path.Network? <==> p != Offline
    ensures path.Network? ==> (path.shouldCache <==> p == Default)
  {
    if p == Offline then CacheOnly else Network(p != NoCache)
  }
}
