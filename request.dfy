/**
 * The incoming HTTP request of the scriptable web server (WebServerRequest).
 *
 * A request is a read-only view of what the embedded HTTP engine parsed: the
 * method, version, URL, query string, client address, remote user and the
 * headers in the order they arrived. The scalar accessors are the fields of
 * the datatype; the headers are reached by index, as the script interface
 * does: a count, then the name and the value at each position.
 */
module Request {

  datatype HeaderField = HeaderField(name: string, value: string)

  datatype WebServerRequest = WebServerRequest(
    requestMethod: string,
    httpVersion: string,
    statusCode: int,
    isSSL: bool,
    url: string,
    queryString: string,
    remoteIP: string,
    remotePort: int,
    remoteUser: string,
    fields: seq<HeaderField>)
  {
    /** The number of headers. */
    function Headers(): nat {
      |fields|
    }

    /** The name of header number `i`. */
    function HeaderName(i: int): string
      requires 0 <= i < Headers()
    {
      fields[i].name
    }

    /** The value of header number `i`. */
    function HeaderValue(i: int): string
      requires 0 <= i < Headers()
    {
      fields[i].value
    }

    /** The headers a script collects by asking for the first `k` names and values. */
    function Collected(k: nat): seq<HeaderField>
      requires k <= Headers()
    {
      if k == 0 then []
      else Collected(k - 1) + [HeaderField(HeaderName(k - 1), HeaderValue(k - 1))]
    }
  }

  lemma {:induction false} CollectedPrefix(r: WebServerRequest, k: nat)
    requires k <= r.Headers()
    ensures r.Collected(k) == r.fields[..k]
  {
    if k > 0 {
      CollectedPrefix(r, k - 1);
      assert r.fields[..k] == r.fields[..k - 1] + [r.fields[k - 1]];
    }
  }

  /**
   * Walking the indices 0 .. headers() - 1 with headerName and headerValue
   * visits every header of the request exactly once, in arrival order.
   */
  lemma CollectedAll(r: WebServerRequest)
    ensures r.Collected(r.Headers()) == r.fields
  {
    CollectedPrefix(r, r.Headers());
  }

  /**
   * The indexed accessors lose nothing: two requests that report the same
   * header count and the same name and value at every index carry the same
   * headers, in the same order.
   */
  lemma AccessorsDetermineHeaders(r1: WebServerRequest, r2: WebServerRequest)
    requires r1.Headers() == r2.Headers()
    requires forall i :: 0 <= i < r1.Headers() ==> r1.HeaderName(i) == r2.HeaderName(i)
    requires forall i :: 0 <= i < r1.Headers() ==> r1.HeaderValue(i) == r2.HeaderValue(i)
    ensures r1.fields == r2.fields
  {
    CollectedAll(r1);
    CollectedAll(r2);
    CollectedSame(r1, r2, r1.Headers());
  }

  lemma {:induction false} CollectedSame(r1: WebServerRequest, r2: WebServerRequest, k: nat)
    requires k <= r1.Headers() == r2.Headers()
    requires forall i :: 0 <= i < r1.Headers() ==> r1.HeaderName(i) == r2.HeaderName(i)
    requires forall i :: 0 <= i < r1.Headers() ==> r1.HeaderValue(i) == r2.HeaderValue(i)
    ensures r1.Collected(k) == r2.Collected(k)
  {
    if k > 0 {
      CollectedSame(r1, r2, k - 1);
    }
  }
}
