/**
 * The API client of Services/NetworkManager.swift: URL resolution against a
 * base origin, bearer-token gating, response classification and the
 * event-stream line filter used for chat streaming.
 *
 * The foreign parts are inputs: the stored token is an Option read at call
 * time, URL(string:) and JSONSerialization are oracles held by Client, body
 * encoding is a Result, the session's reply is an Http.Exchange and the
 * caller's Decodable type is a decode function.
 */
module NetworkManager {
  import opened Wrappers
  import opened Http

  /** The errors the client raises itself. */
  datatype NetworkError =
    | InvalidURL
    | NoData
    | DecodingError(detail: string)
    | ServerError(statusCode: int, message: Option<string>)
    | Unauthorized
    | Unknown(detail: string)

  /** What a pipeline throws: one of its own errors, or an error it lets
      through unchanged from the body encoder or from the transport. */
  datatype Thrown =
    | Network(error: NetworkError)
    | EncodingFailed(reason: string)
    | Transport(reason: string)

  /** A JSON value, as far as the error-message lookup tells values apart. */
  datatype Json = JString(text: string) | JOther

  /** The client's configuration and the foreign parsers it calls. */
  datatype Client = Client(
    baseURL: string,
    /** URL(string:): the parsed URL, or None when the text is not a URL. */
    parseURL: string -> Option<string>,
    /** JSONSerialization.jsonObject(with:) as? [String: Any]. */
    jsonObject: Body -> Option<map<string, Json>>)

  /** The envelope the server wraps decoded payloads in. */
  datatype APIResponse<T> = APIResponse(data: T, message: Option<string>, success: bool)

  /** Config.API.streamingTimeout, in seconds. */
  const StreamingTimeout: nat := 120

  const DataPrefix := "data: "
  const DoneMarker := "[DONE]"

  // ---------------------------------------------------------------------
  // Error descriptions
  // ---------------------------------------------------------------------

  function DigitChar(d: nat): (c: char)
    requires d < 10
    ensures '0' <= c <= '9'
  {
    "0123456789"[d]
  }

  /** Decimal text of a natural number, most significant digit first. */
  function NatToString(n: nat): (s: string)
    ensures |s| > 0
    ensures forall i :: 0 <= i < |s| ==> '0' <= s[i] <= '9'
    decreases n
  {
    if n < 10 then [DigitChar(n)] else NatToString(n / 10) + [DigitChar(n % 10)]
  }

  /** String interpolation of an Int: a minus sign for negatives, then the digits. */
  function IntToString(n: int): (s: string)
    ensures |s| > 0
    ensures (n < 0) == (s[0] == '-')
  {
    if n < 0 then "-" + NatToString(-n) else NatToString(n)
  }

  /** errorDescription: the server's message when it sent one, fixed text otherwise.
      The description of a wrapped error is its `detail`. */
  function ErrorDescription(e: NetworkError): (d: string)
    ensures e.ServerError? && e.message.Some? ==> d == e.message.value
    ensures e.ServerError? && e.message.None? ==>
      d == "Server error with status code: " + IntToString(e.statusCode)
    ensures e.DecodingError? ==> "Failed to decode response: " <= d
  {
    match e
    case InvalidURL => "Invalid URL"
    case NoData => "No data received from server"
    case DecodingError(detail) => "Failed to decode response: " + detail
    case ServerError(code, message) =>
      if message.Some? then message.value else "Server error with status code: " + IntToString(code)
    case Unauthorized => "Unauthorized. Please log in again."
    case Unknown(detail) => detail
  }

  // ---------------------------------------------------------------------
  // URL resolution
  // ---------------------------------------------------------------------

  /** The text handed to URL(string:): an endpoint that starts with "http" as it
      is, any other endpoint appended to the base origin. */
  function ResolvedText(baseURL: string, endpoint: string): (t: string)
    ensures "http" <= endpoint ==> t == endpoint
    ensures !("http" <= endpoint) ==> t == baseURL + endpoint
  {
    if "http" <= endpoint then endpoint else baseURL + endpoint
  }

  /** buildURL(from:): an absolute endpoint is parsed on its own, any other
      one after the base origin. */
  function BuildURL(client: Client, endpoint: string): (url: Option<string>)
    ensures "http" <= endpoint ==> url == client.parseURL(endpoint)
    ensures !("http" <= endpoint) ==> url == client.parseURL(client.baseURL + endpoint)
  {
    client.parseURL(ResolvedText(client.baseURL, endpoint))
  }

  /** With an absolute base origin, resolving an already resolved endpoint
      changes nothing: every resolved text is treated as absolute. */
  lemma {:induction false} ResolveIdempotent(baseURL: string, endpoint: string)
    requires "http" <= baseURL
    ensures ResolvedText(baseURL, ResolvedText(baseURL, endpoint)) == ResolvedText(baseURL, endpoint)
  {
    if !("http" <= endpoint) {
      var t := baseURL + endpoint;
      assert t[..4] == baseURL[..4];
      assert "http" <= t;
    }
  }

  /** The endpoint is always the tail of the resolved text. */
  lemma ResolvedEndsWithEndpoint(baseURL: string, endpoint: string)
    ensures var t := ResolvedText(baseURL, endpoint);
      |t| >= |endpoint| && t[|t| - |endpoint|..] == endpoint
  {
  }

  // ---------------------------------------------------------------------
  // Authorization
  // ---------------------------------------------------------------------

  /** The header value of section 2.1 of RFC 6750. */
  function BearerValue(token: string): (v: string)
    ensures |v| == 7 + |token| && v[7..] == token && v[..7] == "Bearer "
  {
    "Bearer " + token
  }

  /** The Authorization header a request ends up with. */
  function AuthHeaders(requiresAuth: bool, token: Option<string>): (h: map<string, string>)
    ensures "Authorization" in h <==> requiresAuth && token.Some?
    ensures "Authorization" in h ==> h["Authorization"] == BearerValue(token.value)
    ensures h.Keys <= {"Authorization"}
  {
    if requiresAuth && token.Some? then map["Authorization" := BearerValue(token.value)] else map[]
  }

  /** addAuthHeaders(to:): the stored token becomes a bearer header; with no
      stored token the request is left alone and `unauthorized` is thrown. */
  method AddAuthHeaders(request: URLRequest, token: Option<string>) returns (err: Option<NetworkError>)
    modifies request
    ensures err.None? <==> token.Some?
    ensures err.Some? ==> err.value == Unauthorized && request.Value() == old(request.Value())
    ensures err.None? ==>
      request.Value() == old(request.Value()).(headers := old(request.headers) + AuthHeaders(true, token))
  {
    if token.Some? {
      request.SetValue(BearerValue(token.value), "Authorization");
      err := None;
    } else {
      err := Some(Unauthorized);
    }
  }

  // ---------------------------------------------------------------------
  // Response validation
  // ---------------------------------------------------------------------

  predicate IsSuccessStatus(status: int) {
    200 <= status <= 299
  }

  /** The best-effort message of an error body: its "message" string, else its
      "error" string, else nothing. */
  function ErrorMessage(obj: Option<map<string, Json>>): (msg: Option<string>)
    ensures obj.Some? && "message" in obj.value && obj.value["message"].JString? ==>
      msg == Some(obj.value["message"].text)
    ensures msg.Some? ==>
      obj.Some? &&
      (("message" in obj.value && obj.value["message"] == JString(msg.value)) ||
       ("error" in obj.value && obj.value["error"] == JString(msg.value)))
    ensures msg.None? <==>
      obj.None? ||
      ((("message" !in obj.value) || obj.value["message"].JOther?) &&
       (("error" !in obj.value) || obj.value["error"].JOther?))
  {
    match obj
    case None => None
    case Some(o) =>
      if "message" in o && o["message"].JString? then Some(o["message"].text)
      else if "error" in o && o["error"].JString? then Some(o["error"].text)
      else None
  }

  datatype Validation = Passed | Rejected(error: NetworkError)

  /** validateResponse(_:data:). */
  function ValidateResponse(client: Client, response: Response): (v: Validation)
    ensures v.Passed? <==> response.HTTP? && IsSuccessStatus(response.statusCode)
    ensures response.NonHTTP? ==> v == Rejected(NoData)
    ensures response.HTTP? && response.statusCode == 401 ==> v == Rejected(Unauthorized)
    ensures response.HTTP? && !IsSuccessStatus(response.statusCode) && response.statusCode != 401 ==>
      v == Rejected(ServerError(response.statusCode, ErrorMessage(client.jsonObject(response.body))))
  {
    match response
    case NonHTTP => Rejected(NoData)
    case HTTP(status, body) =>
      if IsSuccessStatus(status) then Passed
      else if status == 401 then Rejected(Unauthorized)
      else Rejected(ServerError(status, ErrorMessage(client.jsonObject(body))))
  }

  /** What happens once a request is sent: the transport's error passes
      through, then the response is validated, then the body is decoded. A
      decode failure is reported, never replaced by a default value. */
  function Receive<T>(client: Client, reply: Exchange<Response>, decode: Body -> Result<T, string>): (r: Result<T, Thrown>)
    ensures reply.TransportFailed? ==> r == Failure(Transport(reply.reason))
    ensures reply.Delivered? && ValidateResponse(client, reply.response).Rejected? ==>
      r == Failure(Network(ValidateResponse(client, reply.response).error))
    ensures r.Success? <==>
      reply.Delivered? && reply.response.HTTP? && IsSuccessStatus(reply.response.statusCode) &&
      decode(reply.response.body).Success?
    ensures r.Success? ==> r.value == decode(reply.response.body).value
    ensures (reply.Delivered? && ValidateResponse(client, reply.response).Passed? &&
             decode(reply.response.body).Failure?) ==>
      r == Failure(Network(DecodingError(decode(reply.response.body).error)))
  {
    match reply
    case TransportFailed(reason) => Failure(Transport(reason))
    case Delivered(response) =>
      match ValidateResponse(client, response)
      case Rejected(e) => Failure(Network(e))
      case Passed =>
        match decode(response.body)
        case Success(v) => Success(v)
        case Failure(detail) => Failure(Network(DecodingError(detail)))
  }

  // ---------------------------------------------------------------------
  // Request pipelines
  // ---------------------------------------------------------------------

  const JSONContentType: map<string, string> := map["Content-Type" := "application/json"]

  /** True when the pre-flight checks pass: the URL resolves and, if the call
      needs authorisation, a token is stored. */
  predicate CanSend(client: Client, endpoint: string, requiresAuth: bool, token: Option<string>) {
    BuildURL(client, endpoint).Some? && (!requiresAuth || token.Some?)
  }

  /** The first pre-flight failure, URL before authorisation. */
  function PreflightError(client: Client, endpoint: string, requiresAuth: bool, token: Option<string>): (e: NetworkError)
    requires !CanSend(client, endpoint, requiresAuth, token)
    ensures e == InvalidURL <==> BuildURL(client, endpoint).None?
    ensures e == Unauthorized <==> BuildURL(client, endpoint).Some? && requiresAuth && token.None?
  {
    if BuildURL(client, endpoint).None? then InvalidURL else Unauthorized
  }

  /** fetch(from:requiresAuth:): a GET with the bearer header when asked for. */
  method Fetch<T>(client: Client, endpoint: string, requiresAuth: bool := true, token: Option<string>,
                  reply: Exchange<Response>, decode: Body -> Result<T, string>)
    returns (result: Result<T, Thrown>, sent: Option<RequestValue>)
    ensures sent.Some? <==> CanSend(client, endpoint, requiresAuth, token)
    ensures sent.None? ==> result == Failure(Network(PreflightError(client, endpoint, requiresAuth, token)))
    ensures sent.Some? ==>
      sent.value == RequestValue(BuildURL(client, endpoint).value, "GET", AuthHeaders(requiresAuth, token), None, SessionDefault)
    ensures sent.Some? ==> result == Receive(client, reply, decode)
  {
    var url := BuildURL(client, endpoint);
    if url.None? {
      return Failure(Network(InvalidURL)), None;
    }
    var request := new URLRequest(url.value);
    request.SetMethod("GET");
    if requiresAuth {
      var err := AddAuthHeaders(request, token);
      if err.Some? {
        return Failure(Network(err.value)), None;
      }
    }
    sent := Some(request.Value());
    result := Receive(client, reply, decode);
  }

  /** The shared body of post(to:body:requiresAuth:) and put(to:body:requiresAuth:):
      a JSON request whose body is encoded after the authorisation check. */
  method SendJSON<R>(client: Client, httpMethod: string, endpoint: string, requiresAuth: bool := true,
                     token: Option<string>, encoded: Result<Body, string>,
                     reply: Exchange<Response>, decode: Body -> Result<R, string>)
    returns (result: Result<R, Thrown>, sent: Option<RequestValue>)
    ensures sent.Some? <==> CanSend(client, endpoint, requiresAuth, token) && encoded.Success?
    ensures !CanSend(client, endpoint, requiresAuth, token) ==>
      result == Failure(Network(PreflightError(client, endpoint, requiresAuth, token)))
    ensures CanSend(client, endpoint, requiresAuth, token) && encoded.Failure? ==>
      result == Failure(EncodingFailed(encoded.error))
    ensures sent.Some? ==>
      sent.value == RequestValue(BuildURL(client, endpoint).value, httpMethod,
                   JSONContentType + AuthHeaders(requiresAuth, token), Some(encoded.value), SessionDefault)
    ensures sent.Some? ==> result == Receive(client, reply, decode)
  {
    var url := BuildURL(client, endpoint);
    if url.None? {
      return Failure(Network(InvalidURL)), None;
    }
    var request := new URLRequest(url.value);
    request.SetMethod(httpMethod);
    request.SetValue("application/json", "Content-Type");
    if requiresAuth {
      var err := AddAuthHeaders(request, token);
      if err.Some? {
        return Failure(Network(err.value)), None;
      }
    }
    if encoded.Failure? {
      return Failure(EncodingFailed(encoded.error)), None;
    }
    request.SetBody(encoded.value);
    sent := Some(request.Value());
    result := Receive(client, reply, decode);
  }

  /** post(to:body:requiresAuth:). */
  method Post<R>(client: Client, endpoint: string, requiresAuth: bool := true, token: Option<string>,
                 encoded: Result<Body, string>, reply: Exchange<Response>, decode: Body -> Result<R, string>)
    returns (result: Result<R, Thrown>, sent: Option<RequestValue>)
    ensures sent.Some? <==> CanSend(client, endpoint, requiresAuth, token) && encoded.Success?
    ensures !CanSend(client, endpoint, requiresAuth, token) ==>
      result == Failure(Network(PreflightError(client, endpoint, requiresAuth, token)))
    ensures CanSend(client, endpoint, requiresAuth, token) && encoded.Failure? ==>
      result == Failure(EncodingFailed(encoded.error))
    ensures sent.Some? ==>
      sent.value == RequestValue(BuildURL(client, endpoint).value, "POST",
                   JSONContentType + AuthHeaders(requiresAuth, token), Some(encoded.value), SessionDefault)
    ensures sent.Some? ==> result == Receive(client, reply, decode)
  {
    result, sent := SendJSON(client, "POST", endpoint, requiresAuth, token, encoded, reply, decode);
  }

  /** put(to:body:requiresAuth:). */
  method Put<R>(client: Client, endpoint: string, requiresAuth: bool := true, token: Option<string>,
                encoded: Result<Body, string>, reply: Exchange<Response>, decode: Body -> Result<R, string>)
    returns (result: Result<R, Thrown>, sent: Option<RequestValue>)
    ensures sent.Some? <==> CanSend(client, endpoint, requiresAuth, token) && encoded.Success?
    ensures !CanSend(client, endpoint, requiresAuth, token) ==>
      result == Failure(Network(PreflightError(client, endpoint, requiresAuth, token)))
    ensures CanSend(client, endpoint, requiresAuth, token) && encoded.Failure? ==>
      result == Failure(EncodingFailed(encoded.error))
    ensures sent.Some? ==>
      sent.value == RequestValue(BuildURL(client, endpoint).value, "PUT",
                   JSONContentType + AuthHeaders(requiresAuth, token), Some(encoded.value), SessionDefault)
    ensures sent.Some? ==> result == Receive(client, reply, decode)
  {
    result, sent := SendJSON(client, "PUT", endpoint, requiresAuth, token, encoded, reply, decode);
  }

  /** delete(from:requiresAuth:): validation only, nothing is decoded. */
  method Delete(client: Client, endpoint: string, requiresAuth: bool := true, token: Option<string>,
                reply: Exchange<Response>)
    returns (result: Result<(), Thrown>, sent: Option<RequestValue>)
    ensures sent.Some? <==> CanSend(client, endpoint, requiresAuth, token)
    ensures sent.None? ==> result == Failure(Network(PreflightError(client, endpoint, requiresAuth, token)))
    ensures sent.Some? ==>
      sent.value == RequestValue(BuildURL(client, endpoint).value, "DELETE", AuthHeaders(requiresAuth, token), None, SessionDefault)
    ensures result.Success? <==>
      sent.Some? && reply.Delivered? && reply.response.HTTP? && IsSuccessStatus(reply.response.statusCode)
    ensures sent.Some? && reply.TransportFailed? ==> result == Failure(Transport(reply.reason))
    ensures sent.Some? && reply.Delivered? && ValidateResponse(client, reply.response).Rejected? ==>
      result == Failure(Network(ValidateResponse(client, reply.response).error))
  {
    var url := BuildURL(client, endpoint);
    if url.None? {
      return Failure(Network(InvalidURL)), None;
    }
    var request := new URLRequest(url.value);
    request.SetMethod("DELETE");
    if requiresAuth {
      var err := AddAuthHeaders(request, token);
      if err.Some? {
        return Failure(Network(err.value)), None;
      }
    }
    sent := Some(request.Value());
    result := Receive(client, reply, (_: Body) => Success(()));
  }

  // ---------------------------------------------------------------------
  // Streaming
  // ---------------------------------------------------------------------

  /** The head of a streamed response and the lines its body is read as.
      `readFailure` is the error the line reader throws after the last line it
      delivered, if it throws one. */
  datatype StreamResponse =
    | NonHTTPStream
    | HTTPStream(statusCode: int, lines: seq<string>, readFailure: Option<string>)

  /** How the stream a caller iterates ends. */
  datatype StreamEnd = Finished | FailedWith(error: Thrown)

  /** Everything a consumer of stream(from:body:requiresAuth:) sees. */
  datatype StreamResult = StreamResult(yielded: seq<string>, end: StreamEnd)

  predicate IsDataLine(line: string) {
    DataPrefix <= line
  }

  function Payload(line: string): string
    requires IsDataLine(line)
  {
    line[|DataPrefix|..]
  }

  predicate IsDoneLine(line: string) {
    IsDataLine(line) && Payload(line) == DoneMarker
  }

  /** The payloads a run of lines yields, and whether a [DONE] line ended it. */
  function Events(lines: seq<string>): (r: (seq<string>, bool))
    ensures r.1 <==> exists i :: 0 <= i < |lines| && IsDoneLine(lines[i])
    ensures |r.0| <= |lines|
    ensures forall e :: e in r.0 ==> e != DoneMarker && DataPrefix + e in lines
    decreases |lines|
  {
    if lines == [] then ([], false)
    else
      var rest := Events(lines[1..]);
      assert forall i :: 0 < i < |lines| ==> lines[i] == lines[1..][i - 1];
      if IsDoneLine(lines[0]) then ([], true)
      else if IsDataLine(lines[0]) then
        assert DataPrefix + Payload(lines[0]) == lines[0];
        ([Payload(lines[0])] + rest.0, rest.1)
      else rest
  }

  /** The index of the first [DONE] line, or |lines| when there is none. */
  function FirstDone(lines: seq<string>): (k: nat)
    ensures k <= |lines|
    ensures k < |lines| ==> IsDoneLine(lines[k])
    ensures forall i :: 0 <= i < k ==> !IsDoneLine(lines[i])
  {
    if lines == [] then 0
    else if IsDoneLine(lines[0]) then 0
    else 1 + FirstDone(lines[1..])
  }

  /** The payloads of the data lines of a run of lines, in order. */
  function DataPayloads(lines: seq<string>): seq<string> {
    if lines == [] then []
    else if IsDataLine(lines[0]) then [Payload(lines[0])] + DataPayloads(lines[1..])
    else DataPayloads(lines[1..])
  }

  /** The line filter, said another way: the payloads of the data lines that
      come before the first [DONE] line; no line after it is looked at. */
  lemma {:induction false} EventsAreDataBeforeDone(lines: seq<string>)
    ensures Events(lines).0 == DataPayloads(lines[..FirstDone(lines)])
    ensures Events(lines).1 <==> FirstDone(lines) < |lines|
  {
    if lines != [] {
      EventsAreDataBeforeDone(lines[1..]);
      if !IsDoneLine(lines[0]) {
        assert lines[..FirstDone(lines)][1..] == lines[1..][..FirstDone(lines[1..])];
      }
    }
  }

  /** Lines after a [DONE] line have no effect. */
  lemma {:induction false} EventsStopAtDone(before: seq<string>, done: string, after: seq<string>)
    requires IsDoneLine(done)
    ensures Events(before + [done] + after) == Events(before + [done])
    ensures Events(before + [done] + after).1
  {
    if before != [] {
      assert (before + [done] + after)[1..] == before[1..] + [done] + after;
      assert (before + [done])[1..] == before[1..] + [done];
      EventsStopAtDone(before[1..], done, after);
    } else {
      assert IsDoneLine((before + [done] + after)[0]);
    }
  }

  /** The example exchange: two data lines, an ignored line and the terminator. */
  lemma StreamExample()
    ensures Events(["data: A", "data: B", "ignored-line", "data: [DONE]"]) == (["A", "B"], true)
  {
    var lines := ["data: A", "data: B", "ignored-line", "data: [DONE]"];
    assert IsDataLine(lines[0]) && Payload(lines[0]) == "A" && !IsDoneLine(lines[0]);
    assert lines[1..] == ["data: B", "ignored-line", "data: [DONE]"];
    assert IsDataLine(lines[1]) && Payload(lines[1]) == "B" && !IsDoneLine(lines[1]);
    assert lines[2..] == ["ignored-line", "data: [DONE]"];
    assert lines[2][0] != DataPrefix[0];
    assert lines[3..] == ["data: [DONE]"];
    assert IsDoneLine(lines[3]);
    assert lines[1..][1..] == lines[2..] && lines[2..][1..] == lines[3..];
    assert Events(lines[3..]) == ([], true);
    assert Events(lines[2..]) == ([], true);
    assert Events(lines[1..]) == (["B"] + [], true);
    assert !IsDoneLine(lines[0]) && IsDataLine(lines[0]);
    assert Events(lines) == ([Payload(lines[0])] + Events(lines[1..]).0, Events(lines[1..]).1);
    assert ["A"] + (["B"] + []) == ["A", "B"];
  }

  /** What a stream yields once its request is sent. */
  function StreamOutcome(reply: Exchange<StreamResponse>): (r: StreamResult)
    ensures r.end.FailedWith? && (r.end.error.Network? || r.end.error.Transport?) ==>
      reply.TransportFailed? || reply.response.NonHTTPStream? ||
      !IsSuccessStatus(reply.response.statusCode) || reply.response.readFailure.Some?
    ensures reply.TransportFailed? ==> r == StreamResult([], FailedWith(Transport(reply.reason)))
    ensures reply.Delivered? && reply.response.NonHTTPStream? ==> r == StreamResult([], FailedWith(Network(NoData)))
    ensures reply.Delivered? && reply.response.HTTPStream? && !IsSuccessStatus(reply.response.statusCode) ==>
      r == StreamResult([], FailedWith(Network(ServerError(reply.response.statusCode, None))))
    ensures reply.Delivered? && reply.response.HTTPStream? && IsSuccessStatus(reply.response.statusCode) ==>
      r.yielded == Events(reply.response.lines).0 &&
      r.end == (if Events(reply.response.lines).1 || reply.response.readFailure.None? then Finished
                else FailedWith(Transport(reply.response.readFailure.value)))
  {
    match reply
    case TransportFailed(reason) => StreamResult([], FailedWith(Transport(reason)))
    case Delivered(NonHTTPStream) => StreamResult([], FailedWith(Network(NoData)))
    case Delivered(HTTPStream(status, lines, readFailure)) =>
      if !IsSuccessStatus(status) then StreamResult([], FailedWith(Network(ServerError(status, None))))
      else
        var (events, sawDone) := Events(lines);
        if sawDone || readFailure.None? then StreamResult(events, Finished)
        else StreamResult(events, FailedWith(Transport(readFailure.value)))
  }

  const StreamHeaders: map<string, string> :=
    map["Content-Type" := "application/json", "Accept" := "text/event-stream"]

  /** stream(from:body:requiresAuth:): a POST that asks for an event stream,
      then the line loop. Every failure ends the stream with that error. */
  method Stream(client: Client, endpoint: string, requiresAuth: bool := true, token: Option<string>,
                encoded: Result<Body, string>, reply: Exchange<StreamResponse>)
    returns (result: StreamResult, sent: Option<RequestValue>)
    ensures sent.Some? <==> CanSend(client, endpoint, requiresAuth, token) && encoded.Success?
    ensures !CanSend(client, endpoint, requiresAuth, token) ==>
      result == StreamResult([], FailedWith(Network(PreflightError(client, endpoint, requiresAuth, token))))
    ensures CanSend(client, endpoint, requiresAuth, token) && encoded.Failure? ==>
      result == StreamResult([], FailedWith(EncodingFailed(encoded.error)))
    ensures sent.Some? ==>
      sent.value == RequestValue(BuildURL(client, endpoint).value, "POST", StreamHeaders + AuthHeaders(requiresAuth, token),
                   Some(encoded.value), Seconds(StreamingTimeout))
    ensures sent.Some? ==> result == StreamOutcome(reply)
  {
    var url := BuildURL(client, endpoint);
    if url.None? {
      return StreamResult([], FailedWith(Network(InvalidURL))), None;
    }
    var request := new URLRequest(url.value);
    request.SetMethod("POST");
    request.SetValue("application/json", "Content-Type");
    request.SetValue("text/event-stream", "Accept");
    request.SetTimeout(Seconds(StreamingTimeout));
    if requiresAuth {
      var err := AddAuthHeaders(request, token);
      if err.Some? {
        return StreamResult([], FailedWith(Network(err.value))), None;
      }
    }
    if encoded.Failure? {
      return StreamResult([], FailedWith(EncodingFailed(encoded.error))), None;
    }
    request.SetBody(encoded.value);
    sent := Some(request.Value());

    if reply.TransportFailed? {
      return StreamResult([], FailedWith(Transport(reply.reason))), sent;
    }
    if reply.response.NonHTTPStream? {
      return StreamResult([], FailedWith(Network(NoData))), sent;
    }
    var status, lines := reply.response.statusCode, reply.response.lines;
    if !IsSuccessStatus(status) {
      return StreamResult([], FailedWith(Network(ServerError(status, None)))), sent;
    }
    result := ReadLines(lines, reply.response.readFailure);
  }

  /** The `for try await line in bytes.lines` loop: yield each data payload,
      stop at [DONE], and end with the reader's error if it throws one first. */
  method ReadLines(lines: seq<string>, readFailure: Option<string>) returns (result: StreamResult)
    ensures result.yielded == Events(lines).0
    ensures result.end == (if Events(lines).1 || readFailure.None? then Finished
                           else FailedWith(Transport(readFailure.value)))
  {
    var yielded: seq<string> := [];
    var i := 0;
    var done := false;
    assert lines[0..] == lines;
    assert yielded + Events(lines).0 == Events(lines).0;
    while i < |lines| && !done
      invariant 0 <= i <= |lines|
      invariant !done ==> Events(lines) == (yielded + Events(lines[i..]).0, Events(lines[i..]).1)
      invariant done ==> Events(lines) == (yielded, true)
    {
      var line := lines[i];
      assert lines[i..][1..] == lines[i + 1..];
      ghost var rest := Events(lines[i + 1..]);
      assert Events(lines[i..]) ==
        if IsDoneLine(line) then ([], true)
        else if IsDataLine(line) then ([Payload(line)] + rest.0, rest.1)
        else rest;
      if IsDataLine(line) {
        var data := line[|DataPrefix|..];
        if data == DoneMarker {
          assert yielded + [] == yielded;
          done := true;
        } else {
          assert yielded + [data] + rest.0 == yielded + ([data] + rest.0);
          yielded := yielded + [data];
        }
      }
      i := i + 1;
    }
    if done || readFailure.None? {
      result := StreamResult(yielded, Finished);
    } else {
      result := StreamResult(yielded, FailedWith(Transport(readFailure.value)));
    }
  }
}
