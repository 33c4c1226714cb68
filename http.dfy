/**
 * Stand-ins for the Foundation types both API clients use: the request object
 * that the clients mutate step by step before sending it, the response a
 * session hands back, and the outcome of one transport round trip.
 * URLSession itself is not modelled: its result is an input.
 */
module Http {
  import opened Wrappers

  newtype byte = x: int | 0 <= x < 256

  /** Raw bytes of a request or response body. */
  type Body = seq<byte>

  /** A completed response: either one carrying HTTP metadata, or one that does not. */
  datatype Response = NonHTTP | HTTP(statusCode: int, body: Body)

  /** One transport round trip: a response arrives, or the session throws
      (timeout, lost connectivity, cancellation). */
  datatype Exchange<R> = Delivered(response: R) | TransportFailed(reason: string)

  /** The per-request timeout: the session's configured one, or an explicit override. */
  datatype Timeout = SessionDefault | Seconds(seconds: nat)

  /** The value of a request at the moment it is handed to the session. */
  datatype RequestValue = RequestValue(
    url: string,
    httpMethod: string,
    headers: map<string, string>,
    httpBody: Option<Body>,
    timeout: Timeout)

  /** A mutable request, as URLRequest is used with `var request`.
      Header names are kept exactly as set. */
  class URLRequest {
    const url: string
    var httpMethod: string
    var headers: map<string, string>
    var httpBody: Option<Body>
    var timeout: Timeout

    /** A new request defaults to GET with no headers, no body and the session's timeout. */
    constructor (url: string)
      ensures Value() == RequestValue(url, "GET", map[], None, SessionDefault)
    {
      this.url := url;
      httpMethod := "GET";
      headers := map[];
      httpBody := None;
      timeout := SessionDefault;
    }

    function Value(): RequestValue
      reads this
    {
      RequestValue(url, httpMethod, headers, httpBody, timeout)
    }

    /** Sets one header field, replacing an earlier value of the same field. */
    method SetValue(value: string, field: string)
      modifies this
      ensures Value() == old(Value()).(headers := old(headers)[field := value])
    {
      headers := headers[field := value];
    }

    method SetMethod(m: string)
      modifies this
      ensures Value() == old(Value()).(httpMethod := m)
    {
      httpMethod := m;
    }

    method SetBody(b: Body)
      modifies this
      ensures Value() == old(Value()).(httpBody := Some(b))
    {
      httpBody := Some(b);
    }

    method SetTimeout(t: Timeout)
      modifies this
      ensures Value() == old(Value()).(timeout := t)
    {
      timeout := t;
    }
  }
}
