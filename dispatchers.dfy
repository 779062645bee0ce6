/** `ResponseDispatcher`: the registry of type adapters and the decision of who handles a body. */
module Dispatchers {
  import opened Wrappers
  import opened EasyVolleyResponses
  import opened Callbacks
  import opened Foreign
  import opened Adapters

  /** The registry a new dispatcher holds: one adapter for each of `String`, `JSONObject` and `JSONArray`. */
  const BuiltinAdapters: map<TypeTag, Adapter> :=
    map[StringType := StringTypeAdapter, JsonObjectType := JsonObjectTypeAdapter, JsonArrayType := JsonArrayTypeAdapter]

  /**
   * What one `dispatch` does: the calls made on the callback, and the message of the
   * exception that escapes it, if any.
   */
  datatype Dispatched = Dispatched(calls: seq<Invocation>, thrown: Option<string>)

  /**
   * `dispatch(callback, body, envelope)` against a registry: nothing for a null callback;
   * the adapter registered for the callback's type when there is one; otherwise Gson
   * decodes the body and a single one-argument `onSuccess` carries the result, unless
   * Gson throws, which leaves `dispatch` before any call.
   */
  function DispatchWith(registry: map<TypeTag, Adapter>, callback: Option<Callback>, body: string,
                        envelope: Option<EasyVolleyResponse>, o: Oracles): (r: Dispatched)
    ensures callback.None? ==> r == Dispatched([], None)
    ensures r.thrown.Some? ==> r.calls == []
    ensures r.thrown.Some? <==>
              callback.Some? && callback.value.resultType !in registry
              && o.gsonFromJson(body, callback.value.resultType).Failure?
    ensures (callback.Some? && callback.value.resultType in registry && IsBuiltin(registry[callback.value.resultType]))
              ==> DeliversOnce(callback, r.calls)
  {
    if callback.None? then Dispatched([], None)
    else if callback.value.resultType in registry then
      Dispatched(Process(registry[callback.value.resultType], callback, body, envelope, o), None)
    else
      match o.gsonFromJson(body, callback.value.resultType)
      case Success(handle) => Dispatched([OnSuccess(callback.value, Decoded(handle), None)], None)
      case Failure(message) => Dispatched([], Some(message))
  }

  /** No callback, no calls and no exception, whatever is registered. */
  lemma NullCallbackNoCalls(registry: map<TypeTag, Adapter>, body: string, envelope: Option<EasyVolleyResponse>,
                            o: Oracles)
    ensures DispatchWith(registry, None, body, envelope, o) == Dispatched([], None)
  {
  }

  /** A registered adapter handles the body alone: the calls are its calls and Gson is not consulted. */
  lemma RegisteredAdapterWins(registry: map<TypeTag, Adapter>, callback: Callback, body: string,
                              envelope: Option<EasyVolleyResponse>, o: Oracles,
                              gson': (string, TypeTag) -> Result<ObjectHandle, string>)
    requires callback.resultType in registry
    ensures DispatchWith(registry, Some(callback), body, envelope, o)
         == Dispatched(Process(registry[callback.resultType], Some(callback), body, envelope, o), None)
    ensures DispatchWith(registry, Some(callback), body, envelope, o)
         == DispatchWith(registry, Some(callback), body, envelope, o.(gsonFromJson := gson'))
  {
  }

  /**
   * With no adapter for the type, Gson decides: one success carrying its decoding of the
   * body, or, when it throws, no call at all and the exception escapes.
   */
  lemma FallbackDecodes(registry: map<TypeTag, Adapter>, callback: Callback, body: string,
                        envelope: Option<EasyVolleyResponse>, o: Oracles)
    requires callback.resultType !in registry
    ensures o.gsonFromJson(body, callback.resultType).Success? ==>
              DispatchWith(registry, Some(callback), body, envelope, o)
              == Dispatched([OnSuccess(callback, Decoded(o.gsonFromJson(body, callback.resultType).value), None)], None)
    ensures o.gsonFromJson(body, callback.resultType).Failure? ==>
              DispatchWith(registry, Some(callback), body, envelope, o)
              == Dispatched([], Some(o.gsonFromJson(body, callback.resultType).error))
  {
  }

  /**
   * With only the built-in registry, a dispatch that does not throw calls each non-null
   * callback exactly once; only a POJO callback type can make it throw.
   */
  lemma BuiltinRegistryDeliversOnce(callback: Option<Callback>, body: string,
                                    envelope: Option<EasyVolleyResponse>, o: Oracles)
    ensures var r := DispatchWith(BuiltinAdapters, callback, body, envelope, o);
            (r.thrown.None? ==> DeliversOnce(callback, r.calls))
            && (r.thrown.Some? ==> callback.Some? && callback.value.resultType.PojoType?)
  {
  }

  class ResponseDispatcher {
    var adapters: map<TypeTag, Adapter>

    /** The private constructor: registers the three built-in adapters. */
    constructor ()
      ensures adapters == BuiltinAdapters
      ensures adapters.Keys == {StringType, JsonObjectType, JsonArrayType}
    {
      adapters := map[];
      new;
      RegisterTypeAdapter(StringType, StringTypeAdapter);
      RegisterTypeAdapter(JsonObjectType, JsonObjectTypeAdapter);
      RegisterTypeAdapter(JsonArrayType, JsonArrayTypeAdapter);
    }

    /** `resgisterTypeAdapter(t, adapter)`: `t` now maps to `adapter`, replacing any earlier one; other types keep theirs. */
    method RegisterTypeAdapter(t: TypeTag, adapter: Adapter)
      modifies this`adapters
      ensures adapters == old(adapters)[t := adapter]
      ensures t in adapters && adapters[t] == adapter
      ensures forall u :: u != t ==> (u in adapters <==> u in old(adapters))
      ensures forall u :: u != t && u in adapters ==> adapters[u] == old(adapters)[u]
    {
      adapters := adapters[t := adapter];
    }

    /**
     * `dispatch(callback, body)` with the registry this dispatcher holds: a null callback
     * is never called; a type whose adapter is built in is called exactly once and never
     * throws; an exception escapes only for a type with no adapter.
     */
    function Dispatch(callback: Option<Callback>, body: string, envelope: Option<EasyVolleyResponse>,
                      o: Oracles): (r: Dispatched)
      reads this
      ensures callback.None? ==> r == Dispatched([], None)
      ensures r.thrown.Some? ==> r.calls == [] && callback.Some? && callback.value.resultType !in adapters
      ensures (callback.Some? && callback.value.resultType in adapters && IsBuiltin(adapters[callback.value.resultType]))
                ==> r.thrown.None? && DeliversOnce(callback, r.calls)
    {
      DispatchWith(adapters, callback, body, envelope, o)
    }
  }

  /** The static `instance` slot of `ResponseDispatcher`. */
  class DispatcherSlot {
    var instance: ResponseDispatcher?

    constructor ()
      ensures instance == null
    {
      instance := null;
    }

    /** `getInstance()`: creates the dispatcher on first use and returns that same one from then on. */
    method GetInstance() returns (d: ResponseDispatcher)
      modifies this`instance
      ensures old(instance) != null ==> d == old(instance)
      ensures old(instance) == null ==> fresh(d) && d.adapters == BuiltinAdapters
      ensures instance == d
    {
      if instance == null {
        instance := new ResponseDispatcher();
      }
      d := instance;
    }
  }

  /** Two calls to `getInstance` in a row return one and the same dispatcher. */
  method GetInstanceTwice(slot: DispatcherSlot) returns (first: ResponseDispatcher, second: ResponseDispatcher)
    modifies slot`instance
    ensures first == second
  {
    first := slot.GetInstance();
    second := slot.GetInstance();
  }
}
