/**
 * The values of the transport library (Volley) and of the Android platform that the
 * core reads and writes. Only their data is modelled; the library's behaviour that the
 * core depends on enters through the oracles of module Foreign.
 */
module Volley {
  import opened Wrappers

  /** A byte of a body, as its unsigned value. */
  newtype byte = b: int | 0 <= b < 256

  type Bytes = seq<byte>

  /** Java's `int`. */
  newtype int32 = x: int | -0x8000_0000 <= x < 0x8000_0000

  datatype Header = Header(name: string, value: string)

  /** ASCII lower case of one character; header names are ASCII tokens (section 3.2 of RFC 7230). */
  function LowerAscii(c: char): char {
    if 'A' <= c <= 'Z' then (c as int + 32) as char else c
  }

  /** A header name with its ASCII letters lower-cased: names equal up to case fold to the same string. */
  function FoldCase(name: string): (folded: string)
    ensures |folded| == |name|
    ensures forall i :: 0 <= i < |name| ==> folded[i] == LowerAscii(name[i])
  {
    seq(|name|, i requires 0 <= i < |name| => LowerAscii(name[i]))
  }

  /**
   * The header map Volley derives from a header list, a map that compares names without
   * regard to case: it is keyed here by the case-folded name, and each name maps to the
   * value of its last occurrence under any spelling.
   */
  function HeaderMap(hs: seq<Header>): (m: map<string, string>)
    ensures m.Keys == set h | h in hs :: FoldCase(h.name)
  {
    if hs == [] then map[]
    else
      var init, last := hs[..|hs| - 1], hs[|hs| - 1];
      assert forall h :: h in hs <==> h in init || h == last;
      HeaderMap(init)[FoldCase(last.name) := last.value]
  }

  /** A header that no later header of the list names again, in any case, is the one the map keeps. */
  lemma {:induction false} LastOccurrenceWins(hs: seq<Header>, i: nat)
    requires i < |hs|
    requires forall j :: i < j < |hs| ==> FoldCase(hs[j].name) != FoldCase(hs[i].name)
    ensures FoldCase(hs[i].name) in HeaderMap(hs) && HeaderMap(hs)[FoldCase(hs[i].name)] == hs[i].value
  {
    if i < |hs| - 1 {
      var init := hs[..|hs| - 1];
      assert forall j :: i < j < |init| ==> init[j] == hs[j];
      LastOccurrenceWins(init, i);
    }
  }

  /** Every value of the map is the value of a header of the list whose name folds to its key. */
  lemma {:induction false} HeaderMapValues(hs: seq<Header>, k: string)
    requires k in HeaderMap(hs)
    ensures exists h :: h in hs && FoldCase(h.name) == k && h.value == HeaderMap(hs)[k]
  {
    var init, last := hs[..|hs| - 1], hs[|hs| - 1];
    if k != FoldCase(last.name) {
      HeaderMapValues(init, k);
      var h :| h in init && FoldCase(h.name) == k && h.value == HeaderMap(init)[k];
      assert h in hs;
    }
  }

  /** Volley's `NetworkResponse`; its `headers` map is derived from `allHeaders`. */
  datatype NetworkResponse = NetworkResponse(
    statusCode: int,
    data: Option<Bytes>,
    notModified: bool,
    networkTimeMs: int,
    allHeaders: seq<Header>)
  {
    function Headers(): map<string, string> {
      HeaderMap(allHeaders)
    }

    /**
     * `headers.get(name)`: the value of the last header whose name equals `name` up to
     * case, or null when there is none.
     */
    function Header(name: string): Option<string> {
      var m := Headers();
      var key := FoldCase(name);
      if key in m then Some(m[key]) else None
    }
  }

  const HttpOk: int := 200

  /** `new NetworkResponse(data, headers)`: a 200 response, not "not modified", taking 0 ms. */
  function ResponseOf(data: Option<Bytes>, headers: seq<Header>): (r: NetworkResponse)
    ensures r.statusCode == HttpOk && !r.notModified && r.networkTimeMs == 0
    ensures r.data == data && r.allHeaders == headers
  {
    NetworkResponse(HttpOk, data, false, 0, headers)
  }

  /**
   * Volley's `Cache.Entry`: the cached body, its response headers (in the order the map
   * yields them), the validator token, and whether the entry has outlived its time to live
   * (`isExpired()`, a comparison with the clock, taken here as a recorded fact).
   */
  datatype CacheEntry = CacheEntry(
    data: Option<Bytes>,
    responseHeaders: seq<Header>,
    etag: Option<string>,
    expired: bool)

  /** Volley's `VolleyError`: message, round-trip time and the response, if any. */
  datatype VolleyError = VolleyError(
    message: Option<string>,
    networkTimeMs: int,
    networkResponse: Option<NetworkResponse>)

  /** `new VolleyError(message)`: no response and no time. */
  function ErrorWithMessage(message: string): (e: VolleyError)
    ensures e.message == Some(message) && e.networkTimeMs == 0 && e.networkResponse.None?
  {
    VolleyError(Some(message), 0, None)
  }

  /** Volley's `DefaultRetryPolicy`, its three parameters. */
  datatype RetryPolicy = RetryPolicy(timeoutMs: int32, maxNumRetries: int32, backoffMultiplier: real)

  const DefaultTimeoutMs: int32 := 2500
  const DefaultMaxRetries: int32 := 1
  const DefaultBackoffMultiplier: real := 1.0

  /** The policy every Volley request starts with. */
  const DefaultRetry := RetryPolicy(DefaultTimeoutMs, DefaultMaxRetries, DefaultBackoffMultiplier)

  /** Volley's `Request.Method` values. */
  datatype Method = Get | Post | Put | Delete | Head | Options | Trace | Patch

  datatype QueryParam = QueryParam(name: string, value: string)

  /**
   * An Android `Uri`: the URL string the builder was given and the query parameters
   * appended to it, in order (rendering and percent-encoding are not modelled).
   */
  datatype Url = Url(base: string, query: seq<QueryParam>)

  /**
   * `headers.get(name)` finds a value exactly when some header's name equals `name` up to
   * case, and what it finds is the value of such a header.
   */
  lemma HeaderLookup(r: NetworkResponse, name: string)
    ensures r.Header(name).None? <==> forall h :: h in r.allHeaders ==> FoldCase(h.name) != FoldCase(name)
    ensures r.Header(name).Some? ==>
              exists h :: h in r.allHeaders && FoldCase(h.name) == FoldCase(name) && h.value == r.Header(name).value
  {
    if r.Header(name).Some? {
      HeaderMapValues(r.allHeaders, FoldCase(name));
    }
  }
}
