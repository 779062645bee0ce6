/**
 * `CacheOnlyDispatcher`: the worker that answers `OFFLINE` requests from the cache alone.
 * Each request it takes is dropped (canceled), answered with an error (no entry, or an
 * expired one) or answered with the cached response parsed as a network response.
 */
module CacheOnly {
  import opened Wrappers
  import opened Volley
  import opened Errors
  import opened Foreign
  import opened Requests
  import opened NetworkClients
  import ResponseInterceptors

  const NoCacheMessage := "No Cache Available"
  const ExpiredMessage := "Cache has expired"

  /** The four ways a taken request can go. */
  datatype Triage = Dropped | Missed | Expired(entry: CacheEntry) | Hit(entry: CacheEntry)

  /** Which of the four a request takes, from its cancel flag and what the cache holds for its key. */
  function TriageOf(canceled: bool, entry: Option<CacheEntry>): (t: Triage)
    ensures t.Dropped? <==> canceled
    ensures t.Missed? <==> !canceled && entry.None?
    ensures t.Expired? <==> !canceled && entry.Some? && entry.value.expired
    ensures t.Hit? <==> !canceled && entry.Some? && !entry.value.expired
    ensures (t.Expired? || t.Hit?) ==> entry == Some(t.entry)
  {
    if canceled then Dropped
    else if entry.None? then Missed
    else if entry.value.expired then Expired(entry.value)
    else Hit(entry.value)
  }

  /** What the worker hands to Volley's `ResponseDelivery`. */
  datatype Delivery =
    | ErrorPosted(request: NetworkRequest, error: VolleyError)
    | ResponsePosted(request: NetworkRequest, text: string, cacheEntry: Option<CacheEntry>)

  /**
   * The effect of processing one request: what was delivered, and whether parsing threw
   * (a cached entry with no data), which ends the worker since only interrupts are caught.
   */
  datatype ItemResult = ItemResult(deliveries: seq<Delivery>, died: bool)

  /** `new NetworkResponse(entry.data, entry.responseHeaders)`. */
  function CachedResponse(e: CacheEntry): (r: NetworkResponse)
    ensures r.data == e.data && r.allHeaders == e.responseHeaders && r.statusCode == HttpOk
  {
    ResponseOf(e.data, e.responseHeaders)
  }

  /**
   * Whether processing the request throws: it is not canceled, its entry is fresh, and its
   * data is null once the response interceptors have run.
   */
  predicate Crashes(request: NetworkRequest, canceled: bool, cache: map<Url, CacheEntry>,
                    chain: seq<ResponseInterceptors.ResponseInterceptor>, o: Oracles) {
    && !canceled
    && request.CacheKey() in cache
    && !cache[request.CacheKey()].expired
    && ResponseInterceptors.Fold(chain, CachedResponse(cache[request.CacheKey()]), o).data.None?
  }

  /** A request crashes the worker exactly when it is a cache hit whose response decodes to the null-data case. */
  lemma CrashesIsNullHit(request: NetworkRequest, canceled: bool, cache: map<Url, CacheEntry>,
                         chain: seq<ResponseInterceptors.ResponseInterceptor>, o: Oracles)
    ensures var t := TriageOf(canceled, Lookup(cache, request.CacheKey()));
            Crashes(request, canceled, cache, chain, o) <==>
              t.Hit? && Decode(ResponseInterceptors.Fold(chain, CachedResponse(t.entry), o), o).NullData?
  {
  }

  /** `processRequest` on one request, as a value. */
  function Item(request: NetworkRequest, canceled: bool, cache: map<Url, CacheEntry>,
                chain: seq<ResponseInterceptors.ResponseInterceptor>, o: Oracles): (res: ItemResult)
    ensures |res.deliveries| <= 1
    ensures forall d :: d in res.deliveries ==> d.request == request
    ensures canceled ==> res.deliveries == [] && !res.died
    ensures !canceled && !res.died ==> |res.deliveries| == 1
    ensures res.died ==> res.deliveries == []
    ensures res.died <==> Crashes(request, canceled, cache, chain, o)
  {
    match TriageOf(canceled, Lookup(cache, request.CacheKey()))
    case Dropped => ItemResult([], false)
    case Missed => ItemResult([ErrorPosted(request, ErrorWithMessage(NoCacheMessage))], false)
    case Expired(_) => ItemResult([ErrorPosted(request, ErrorWithMessage(ExpiredMessage))], false)
    case Hit(e) =>
      match Decode(ResponseInterceptors.Fold(chain, CachedResponse(e), o), o)
      case NullData => ItemResult([], true)
      case Parsed(text, entry) => ItemResult([ResponsePosted(request, text, entry)], false)
  }

  /** A miss is answered with one error reading "No Cache Available", which reaches the callback with unknown status. */
  lemma MissIsNoCacheError(request: NetworkRequest, cache: map<Url, CacheEntry>,
                           chain: seq<ResponseInterceptors.ResponseInterceptor>, o: Oracles)
    requires request.CacheKey() !in cache
    ensures Item(request, false, cache, chain, o).deliveries == [ErrorPosted(request, ErrorWithMessage(NoCacheMessage))]
    ensures From(Some(ErrorWithMessage(NoCacheMessage))) == FromMessage(Some(NoCacheMessage))
    ensures From(Some(ErrorWithMessage(NoCacheMessage))).statusCode == UnknownStatus
  {
    MessageErrorsAgree(NoCacheMessage);
  }

  /** An expired entry is answered with one error reading "Cache has expired", which reaches the callback with unknown status. */
  lemma ExpiredIsExpiredError(request: NetworkRequest, cache: map<Url, CacheEntry>,
                              chain: seq<ResponseInterceptors.ResponseInterceptor>, o: Oracles)
    requires request.CacheKey() in cache && cache[request.CacheKey()].expired
    ensures Item(request, false, cache, chain, o).deliveries == [ErrorPosted(request, ErrorWithMessage(ExpiredMessage))]
    ensures From(Some(ErrorWithMessage(ExpiredMessage))) == FromMessage(Some(ExpiredMessage))
    ensures From(Some(ErrorWithMessage(ExpiredMessage))).statusCode == UnknownStatus
  {
    MessageErrorsAgree(ExpiredMessage);
  }

  /**
   * A fresh entry is answered with one response: the entry's data and headers run through
   * the response interceptors and decoded. The worker dies only here, on an entry whose
   * data is still null after the interceptors.
   */
  lemma HitIsParsedFromEntry(request: NetworkRequest, cache: map<Url, CacheEntry>,
                             chain: seq<ResponseInterceptors.ResponseInterceptor>, o: Oracles)
    requires request.CacheKey() in cache && !cache[request.CacheKey()].expired
    ensures var final := ResponseInterceptors.Fold(chain, CachedResponse(cache[request.CacheKey()]), o);
            var res := Item(request, false, cache, chain, o);
            (res.died <==> final.data.None?) &&
            (final.data.Some? ==> res.deliveries == [ResponsePosted(request, Decode(final, o).text, Decode(final, o).cacheEntry)])
  {
  }

  /** Everything delivered for a run of requests, given each one's cancel flag. */
  function Delivered(items: seq<NetworkRequest>, flags: seq<bool>, cache: map<Url, CacheEntry>,
                     chain: seq<ResponseInterceptors.ResponseInterceptor>, o: Oracles): (ds: seq<Delivery>)
    requires |items| == |flags|
    ensures |ds| <= |items|
  {
    if items == [] then []
    else
      var n := |items| - 1;
      Delivered(items[..n], flags[..n], cache, chain, o) + Item(items[n], flags[n], cache, chain, o).deliveries
  }

  /** Answering one more request appends its deliveries to those of the requests before it. */
  lemma DeliveredSnoc(items: seq<NetworkRequest>, flags: seq<bool>, k: nat, cache: map<Url, CacheEntry>,
                      chain: seq<ResponseInterceptors.ResponseInterceptor>, o: Oracles)
    requires |items| == |flags| && k < |items|
    ensures Delivered(items[..k + 1], flags[..k + 1], cache, chain, o)
         == Delivered(items[..k], flags[..k], cache, chain, o) + Item(items[k], flags[k], cache, chain, o).deliveries
  {
    assert items[..k + 1][..k] == items[..k];
    assert flags[..k + 1][..k] == flags[..k];
  }

  function CanceledFlags(items: seq<NetworkRequest>): (flags: seq<bool>)
    reads set r | r in items
    ensures |flags| == |items|
    ensures forall k :: 0 <= k < |items| ==> flags[k] == items[k].canceled
  {
    if items == [] then [] else CanceledFlags(items[..|items| - 1]) + [items[|items| - 1].canceled]
  }

  /**
   * What ends one blocking `take()`: a request is available, the thread is interrupted,
   * or `quit()` is called (which sets the flag, then interrupts).
   */
  datatype Signal = Take | Interrupt | QuitCalled

  /** How `run` ended: it quit, the worker died of an exception, it waits on an empty queue, or the signals ran out. */
  datatype RunEnd = Stopped | Crashed | Blocked | SignalsExhausted

  class CacheOnlyDispatcher {
    var queue: seq<NetworkRequest>
    var cache: map<Url, CacheEntry>
    const chain: seq<ResponseInterceptors.ResponseInterceptor>
    var deliveries: seq<Delivery>
    var quit: bool
    /** How many times the cache has been initialised. */
    var initializations: nat

    /**
     * A worker over the given queue and cache. Its interceptor chain is the client's
     * response-interceptor list, the one `parseNetworkResponse` reads.
     */
    constructor (queue: seq<NetworkRequest>, cache: map<Url, CacheEntry>, client: NetworkClient)
      ensures this.queue == queue && this.cache == cache && chain == client.responseInterceptors
      ensures deliveries == [] && !quit && initializations == 0
    {
      this.queue, this.cache, this.chain := queue, cache, client.responseInterceptors;
      deliveries, quit, initializations := [], false, 0;
    }

    /** `quit()`: raises the flag, which nothing lowers again. */
    method Quit()
      modifies this`quit
      ensures quit
    {
      quit := true;
    }

    /**
     * `processRequest()`: takes the head of the queue and answers it; an expired entry is
     * attached to the request, a hit records the cached response on it. The cache is only read.
     */
    method ProcessRequest(o: Oracles) returns (died: bool)
      requires queue != []
      modifies this`queue, this`deliveries, queue`cacheEntry, queue`networkResponse
      ensures queue == old(queue[1..])
      ensures cache == old(cache)
      ensures var res := Item(old(queue[0]), old(queue[0].canceled), cache, chain, o);
              deliveries == old(deliveries) + res.deliveries && died == res.died
      ensures forall r :: r in old(queue[1..]) && r != old(queue[0]) ==>
                r.cacheEntry == old(r.cacheEntry) && r.networkResponse == old(r.networkResponse)
      ensures var r := old(queue[0]);
              var t := TriageOf(r.canceled, Lookup(cache, r.CacheKey()));
              (r.cacheEntry == if t.Expired? then Some(t.entry) else old(r.cacheEntry)) &&
              (r.networkResponse == if t.Hit? then Some(CachedResponse(t.entry)) else old(r.networkResponse))
    {
      var request := queue[0];
      queue := queue[1..];
      died := false;
      if request.canceled {
        return;
      }
      var entry := Lookup(cache, request.CacheKey());
      if entry.None? {
        deliveries := deliveries + [ErrorPosted(request, ErrorWithMessage(NoCacheMessage))];
        return;
      }
      if entry.value.expired {
        request.SetCacheEntry(entry.value);
        deliveries := deliveries + [ErrorPosted(request, ErrorWithMessage(ExpiredMessage))];
        return;
      }
      var parsed := request.ParseNetworkResponse(CachedResponse(entry.value), chain, o);
      if parsed.NullData? {
        died := true;
        return;
      }
      deliveries := deliveries + [ResponsePosted(request, parsed.text, parsed.cacheEntry)];
    }

    /** One `processRequest` inside `run`, in terms of the queue `run` started with. */
    method TakeNext(ghost items: seq<NetworkRequest>, ghost flags: seq<bool>, processed: nat,
                    ghost start: seq<Delivery>, o: Oracles)
      returns (died: bool)
      requires |items| == |flags| && processed < |items| && queue == items[processed..]
      requires forall k :: 0 <= k < |items| ==> items[k].canceled == flags[k]
      requires deliveries == start + Delivered(items[..processed], flags[..processed], cache, chain, o)
      modifies this`queue, this`deliveries, queue`cacheEntry, queue`networkResponse
      ensures queue == items[processed + 1..]
      ensures deliveries == start + Delivered(items[..processed + 1], flags[..processed + 1], cache, chain, o)
      ensures died <==> Crashes(items[processed], flags[processed], cache, chain, o)
    {
      assert queue[0] == items[processed] && items[processed].canceled == flags[processed];
      ghost var before := deliveries;
      ghost var res := Item(items[processed], flags[processed], cache, chain, o);
      died := ProcessRequest(o);
      assert deliveries == before + res.deliveries && died == res.died;
      DeliveredSnoc(items, flags, processed, cache, chain, o);
    }

    /** What one signal does to a running worker: take and answer a request, or react to an interrupt or a quit. */
    method Step(signal: Signal, ghost items: seq<NetworkRequest>, ghost flags: seq<bool>, processed: nat,
                ghost start: seq<Delivery>, o: Oracles)
      returns (end: RunEnd, processed': nat)
      requires |items| == |flags| && processed <= |items| && queue == items[processed..]
      requires forall k :: 0 <= k < |items| ==> items[k].canceled == flags[k]
      requires deliveries == start + Delivered(items[..processed], flags[..processed], cache, chain, o)
      modifies this`queue, this`deliveries, this`quit, queue`cacheEntry, queue`networkResponse
      ensures processed' == processed || processed' == processed + 1
      ensures forall k :: 0 <= k < |items| ==> items[k].canceled == flags[k]
      ensures processed' <= |items| && queue == items[processed'..]
      ensures deliveries == start + Delivered(items[..processed'], flags[..processed'], cache, chain, o)
      ensures processed' == processed + 1 ==> (end.Crashed? <==> Crashes(items[processed], flags[processed], cache, chain, o))
      ensures processed' == processed ==> !end.Crashed?
      ensures old(quit) ==> quit
      ensures end.Stopped? ==> quit
      ensures signal != QuitCalled && !old(quit) ==> !quit
      ensures end.Blocked? ==> queue == []
    {
      processed' := processed;
      end := SignalsExhausted;
      match signal {
        case Take =>
          if queue == [] {
            end := Blocked;
          } else {
            var died := TakeNext(items, flags, processed, start, o);
            processed' := processed + 1;
            if died {
              end := Crashed;
            }
          }
        case Interrupt =>
          if quit {
            end := Stopped;
          }
        case QuitCalled =>
          quit := true;
          end := Stopped;
      }
    }

    /**
     * The loop of `run()` over the queue `items` it starts with, whose cancel flags are
     * `flags`: it takes and answers requests until the quit flag is seen on an interrupt,
     * an exception ends the worker, or the queue is empty. An interrupt without the quit
     * flag is ignored.
     */
    method RunLoop(signals: seq<Signal>, ghost items: seq<NetworkRequest>, ghost flags: seq<bool>, o: Oracles)
      returns (end: RunEnd, processed: nat)
      requires queue == items && |flags| == |items|
      requires forall k :: 0 <= k < |items| ==> items[k].canceled == flags[k]
      modifies this`queue, this`deliveries, this`quit, queue`cacheEntry, queue`networkResponse
      ensures old(quit) ==> quit
      ensures end.Stopped? ==> quit
      ensures !old(quit) && QuitCalled !in signals ==> !end.Stopped? && !quit
      ensures processed <= |items| && queue == items[processed..]
      ensures deliveries == old(deliveries) + Delivered(items[..processed], flags[..processed], cache, chain, o)
      ensures end.Crashed? <==> processed > 0 && Crashes(items[processed - 1], flags[processed - 1], cache, chain, o)
      ensures forall j :: 0 <= j < processed - 1 ==> !Crashes(items[j], flags[j], cache, chain, o)
      ensures end.Blocked? ==> queue == []
    {
      processed := 0;
      end := SignalsExhausted;
      var s := 0;
      while s < |signals| && end.SignalsExhausted?
        invariant 0 <= s <= |signals|
        invariant processed <= |items| && queue == items[processed..]
        invariant forall k :: 0 <= k < |items| ==> items[k].canceled == flags[k]
        invariant deliveries == old(deliveries) + Delivered(items[..processed], flags[..processed], cache, chain, o)
        invariant end.Crashed? <==> processed > 0 && Crashes(items[processed - 1], flags[processed - 1], cache, chain, o)
        invariant forall j :: 0 <= j < processed - 1 ==> !Crashes(items[j], flags[j], cache, chain, o)
        invariant old(quit) ==> quit
        invariant end.Stopped? ==> quit
        invariant !old(quit) && QuitCalled !in signals[..s] ==> !quit
        invariant end.Blocked? ==> queue == []
        decreases |signals| - s
      {
        end, processed := Step(signals[s], items, flags, processed, old(deliveries), o);
        assert signals[..s + 1] == signals[..s] + [signals[s]];
        s := s + 1;
      }
      assert s < |signals| ==> !end.SignalsExhausted?;
      assert s == |signals| ==> signals[..s] == signals;
    }

    /**
     * `run()`: initialises the cache once, then runs the loop over the queue as it stands;
     * the cache is never written.
     */
    method Run(signals: seq<Signal>, o: Oracles) returns (end: RunEnd, processed: nat)
      modifies this`queue, this`deliveries, this`quit, this`initializations
      modifies queue`cacheEntry, queue`networkResponse
      ensures initializations == old(initializations) + 1
      ensures cache == old(cache)
      ensures old(quit) ==> quit
      ensures end.Stopped? ==> quit
      ensures !old(quit) && QuitCalled !in signals ==> !end.Stopped? && !quit
      ensures processed <= |old(queue)| && queue == old(queue)[processed..]
      ensures deliveries == old(deliveries) + Delivered(old(queue)[..processed], old(CanceledFlags(queue))[..processed],
                                                        cache, chain, o)
      ensures end.Crashed? <==>
                processed > 0 && Crashes(old(queue)[processed - 1], old(CanceledFlags(queue))[processed - 1], cache, chain, o)
      ensures forall j :: 0 <= j < processed - 1 ==> !Crashes(old(queue)[j], old(CanceledFlags(queue))[j], cache, chain, o)
      ensures end.Blocked? ==> queue == []
    {
      ghost var flags := CanceledFlags(queue);
      initializations := initializations + 1;
      end, processed := RunLoop(signals, queue, flags, o);
    }
  }
}
