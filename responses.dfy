/** `EasyVolleyResponse`: the envelope a successful callback receives besides its value. */
module EasyVolleyResponses {
  import opened Wrappers
  import opened Volley

  datatype EasyVolleyResponse = EasyVolleyResponse(
    statusCode: int,
    data: Option<Bytes>,
    headers: map<string, string>,
    notModified: bool,
    networkTimeMs: int)

  /** `new EasyVolleyResponse(networkResponse)`: the envelope copies the response's fields. */
  function FromNetworkResponse(r: NetworkResponse): (e: EasyVolleyResponse)
    ensures e.statusCode == r.statusCode && e.data == r.data && e.headers == r.Headers()
    ensures e.notModified == r.notModified && e.networkTimeMs == r.networkTimeMs
  {
    EasyVolleyResponse(r.statusCode, r.data, r.Headers(), r.notModified, r.networkTimeMs)
  }
}
