/**
 * `GzipInterceptor`: replaces a gzip-coded body (the `gzip` content coding of section 3.1.2.2
 * of RFC 7231) by its decompressed bytes, read through a 4 KiB buffer.
 */
module Gzip {
  import opened Wrappers
  import opened Volley
  import opened Foreign

  const BufferSize: nat := 4 * 1024
  const ContentEncoding := "Content-Encoding"
  const GzipCoding := "gzip"

  /** The chunks' bytes one after the other, in read order. */
  function Concat(chunks: seq<Bytes>): Bytes {
    if chunks == [] then [] else Concat(chunks[..|chunks| - 1]) + chunks[|chunks| - 1]
  }

  /** Writing one run of chunks and then another gives what writing their concatenation gives. */
  lemma {:induction false} ConcatAppend(a: seq<Bytes>, b: seq<Bytes>)
    ensures Concat(a + b) == Concat(a) + Concat(b)
  {
    if b == [] {
      assert a + b == a;
    } else {
      var b' := b[..|b| - 1];
      assert (a + b)[..|a + b| - 1] == a + b';
      ConcatAppend(a, b');
    }
  }

  /** The response's `Content-Encoding` header, whatever the case of its name, is exactly `gzip`. */
  predicate IsGzipEncoded(r: NetworkResponse) {
    r.Header(ContentEncoding) == Some(GzipCoding)
  }

  /** `GZIPInputStream.read(buffer)` never returns more than the buffer holds. */
  predicate FitsBuffer(run: InflateRun) {
    forall i :: 0 <= i < |run.chunks| ==> |run.chunks[i]| <= BufferSize
  }

  /**
   * What the interceptor does to a response. Status, "not modified" flag, time and the
   * header list (so the header map too) always survive; the body is replaced by the
   * concatenated decompressed chunks exactly when a body is present, it is gzip-coded and
   * inflation reaches end of stream; otherwise the response comes back unchanged.
   */
  function Intercepted(r: NetworkResponse, inflate: Bytes -> InflateRun): (out: NetworkResponse)
    ensures out.statusCode == r.statusCode && out.notModified == r.notModified
    ensures out.networkTimeMs == r.networkTimeMs && out.allHeaders == r.allHeaders
    ensures out.Headers() == r.Headers()
    ensures r.data.None? || !IsGzipEncoded(r) ==> out == r
    ensures r.data.Some? && IsGzipEncoded(r) ==>
              out == if inflate(r.data.value).failed then r
                     else r.(data := Some(Concat(inflate(r.data.value).chunks)))
  {
    if r.data.Some? && IsGzipEncoded(r) then
      var run := inflate(r.data.value);
      if run.failed then r else r.(data := Some(Concat(run.chunks)))
    else r
  }

  /** One `read(buffer)`: the foreign stream fills the front of the buffer with the next chunk. */
  method Read(buffer: array<byte>, chunk: Bytes) returns (len: nat)
    requires |chunk| <= buffer.Length
    modifies buffer
    ensures len == |chunk| && buffer[..len] == chunk
  {
    forall k | 0 <= k < |chunk| {
      buffer[k] := chunk[k];
    }
    len := |chunk|;
  }

  /**
   * `intercept(response)`: the chunk-copy loop through a 4 KiB buffer into a growing
   * output, then the rebuilt response; an `IOException` leaves the response as it was.
   */
  method Intercept(response: NetworkResponse, inflate: Bytes -> InflateRun) returns (result: NetworkResponse)
    requires response.data.Some? && IsGzipEncoded(response) ==> FitsBuffer(inflate(response.data.value))
    ensures result == Intercepted(response, inflate)
  {
    result := response;
    var encoding := response.Header(ContentEncoding);
    if response.data.Some? {
      if encoding.Some? && encoding.value == GzipCoding {
        var run := inflate(response.data.value);
        var buffer := new byte[BufferSize];
        var output: Bytes := [];
        var i := 0;
        while i < |run.chunks|
          invariant 0 <= i <= |run.chunks|
          invariant output == Concat(run.chunks[..i])
        {
          var len := Read(buffer, run.chunks[i]);
          assert run.chunks[..i + 1][..i] == run.chunks[..i];
          output := output + buffer[..len];
          i := i + 1;
        }
        assert run.chunks[..|run.chunks|] == run.chunks;
        if !run.failed {
          result := NetworkResponse(response.statusCode, Some(output), response.notModified,
                                    response.networkTimeMs, response.allHeaders);
        }
      }
    }
  }

  /**
   * The header lookup ignores case, so a body announced with the lower-case name HTTP/2
   * uses is inflated like one announced as `Content-Encoding`.
   */
  lemma LowerCaseNameInflated(data: Bytes, inflate: Bytes -> InflateRun)
    requires !inflate(data).failed
    ensures var r := NetworkResponse(HttpOk, Some(data), false, 0, [Header("content-encoding", GzipCoding)]);
            Intercepted(r, inflate).data == Some(Concat(inflate(data).chunks))
  {
    assert FoldCase(ContentEncoding) == "content-encoding";
    assert FoldCase("content-encoding") == "content-encoding";
  }
}
