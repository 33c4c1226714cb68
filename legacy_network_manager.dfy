/**
 * The older template client of NetworkManager.swift. It uses the URL string
 * verbatim, adds no Authorization header and knows no `unauthorized` error:
 * every status outside 200-299, 401 included, is a server error carrying
 * only the status code, and a decode failure drops its detail.
 *
 * URL(string:) is a parser oracle, the body encoding a Result, the session's
 * reply an Http.Exchange and the Decodable type a decode function.
 */
module LegacyNetworkManager {
  import opened Wrappers
  import opened Http
  import NetworkManager

  datatype LegacyNetworkError =
    | InvalidURL
    | NoData
    | DecodingError
    | ServerError(statusCode: int)
    | Unknown(detail: string)

  /** What fetch and post throw: their own errors, or the encoder's or the
      transport's error passed through unchanged. */
  datatype Thrown =
    | Network(error: LegacyNetworkError)
    | EncodingFailed(reason: string)
    | Transport(reason: string)

  function ErrorDescription(e: LegacyNetworkError): (d: string)
    ensures e.ServerError? ==> d == "Server error with status code: " + NetworkManager.IntToString(e.statusCode)
    ensures e.DecodingError? ==> d == "Failed to decode response"
    ensures e.Unknown? ==> d == e.detail
  {
    match e
    case InvalidURL => "Invalid URL"
    case NoData => "No data received"
    case DecodingError => "Failed to decode response"
    case ServerError(code) => "Server error with status code: " + NetworkManager.IntToString(code)
    case Unknown(detail) => detail
  }

  /** The shared tail of fetch and post: the transport's error passes
      through, a non-HTTP response is `noData`, a status outside 200-299 is a
      server error with that status, and a decode failure is `decodingError`. */
  function Receive<T>(reply: Exchange<Response>, decode: Body -> Result<T, string>): (r: Result<T, Thrown>)
    ensures reply.TransportFailed? ==> r == Failure(Transport(reply.reason))
    ensures reply.Delivered? && reply.response.NonHTTP? ==> r == Failure(Network(NoData))
    ensures reply.Delivered? && reply.response.HTTP? && !NetworkManager.IsSuccessStatus(reply.response.statusCode) ==>
      r == Failure(Network(ServerError(reply.response.statusCode)))
    ensures r.Success? <==>
      reply.Delivered? && reply.response.HTTP? && NetworkManager.IsSuccessStatus(reply.response.statusCode) &&
      decode(reply.response.body).Success?
    ensures r.Success? ==> r.value == decode(reply.response.body).value
    ensures reply.Delivered? && reply.response.HTTP? && NetworkManager.IsSuccessStatus(reply.response.statusCode) &&
            decode(reply.response.body).Failure? ==>
      r == Failure(Network(DecodingError))
  {
    match reply
    case TransportFailed(reason) => Failure(Transport(reason))
    case Delivered(NonHTTP) => Failure(Network(NoData))
    case Delivered(HTTP(status, body)) =>
      if !NetworkManager.IsSuccessStatus(status) then Failure(Network(ServerError(status)))
      else
        match decode(body)
        case Success(v) => Success(v)
        case Failure(_) => Failure(Network(DecodingError))
  }

  /** The request fetch(from:) hands to the session: a plain GET of the URL
      string as given, with no headers, or nothing when the string is not a URL. */
  function FetchRequest(parseURL: string -> Option<string>, urlString: string): (req: Option<RequestValue>)
    ensures req.Some? <==> parseURL(urlString).Some?
    ensures req.Some? ==> req.value.url == parseURL(urlString).value
    ensures req.Some? ==> req.value.httpMethod == "GET" && req.value.headers == map[] && req.value.httpBody.None?
  {
    match parseURL(urlString)
    case None => None
    case Some(url) => Some(RequestValue(url, "GET", map[], None, SessionDefault))
  }

  /** fetch(from:): `invalidURL` before anything is sent, else the outcome of the exchange. */
  function Fetch<T>(parseURL: string -> Option<string>, urlString: string,
                    reply: Exchange<Response>, decode: Body -> Result<T, string>): (r: Result<T, Thrown>)
    ensures parseURL(urlString).None? ==> r == Failure(Network(InvalidURL))
    ensures parseURL(urlString).Some? ==> r == Receive(reply, decode)
    ensures r.Success? ==> FetchRequest(parseURL, urlString).Some?
  {
    if parseURL(urlString).None? then Failure(Network(InvalidURL))
    else Receive(reply, decode)
  }

  /** post(to:body:): a POST with a JSON content type and the encoded body. */
  method Post<R>(parseURL: string -> Option<string>, urlString: string, encoded: Result<Body, string>,
                 reply: Exchange<Response>, decode: Body -> Result<R, string>)
    returns (result: Result<R, Thrown>, sent: Option<RequestValue>)
    ensures sent.Some? <==> parseURL(urlString).Some? && encoded.Success?
    ensures parseURL(urlString).None? ==> result == Failure(Network(InvalidURL))
    ensures parseURL(urlString).Some? && encoded.Failure? ==> result == Failure(EncodingFailed(encoded.error))
    ensures sent.Some? ==>
      sent.value == RequestValue(parseURL(urlString).value, "POST", NetworkManager.JSONContentType,
                                 Some(encoded.value), SessionDefault)
    ensures sent.Some? ==> "Authorization" !in sent.value.headers
    ensures sent.Some? ==> result == Receive(reply, decode)
  {
    var url := parseURL(urlString);
    if url.None? {
      return Failure(Network(InvalidURL)), None;
    }
    var request := new URLRequest(url.value);
    request.SetMethod("POST");
    request.SetValue("application/json", "Content-Type");
    if encoded.Failure? {
      return Failure(EncodingFailed(encoded.error)), None;
    }
    request.SetBody(encoded.value);
    sent := Some(request.Value());
    result := Receive(reply, decode);
  }

  /** How the two clients classify the same response: they agree on success,
      on `noData` and on the status of any other rejection, except that the
      Services client reports 401 as `unauthorized` where this one reports a
      server error with status 401. */
  lemma StatusHandlingComparedWithServicesClient(client: NetworkManager.Client, response: Response, decode: Body -> Result<bool, string>)
    ensures Receive(Delivered(response), decode).Success? <==>
            NetworkManager.Receive(client, Delivered(response), decode).Success?
    ensures response.NonHTTP? ==>
      Receive(Delivered(response), decode) == Failure(Network(NoData)) &&
      NetworkManager.ValidateResponse(client, response) == NetworkManager.Rejected(NetworkManager.NoData)
    ensures response.HTTP? && response.statusCode == 401 ==>
      Receive(Delivered(response), decode) == Failure(Network(ServerError(401))) &&
      NetworkManager.ValidateResponse(client, response) == NetworkManager.Rejected(NetworkManager.Unauthorized)
    ensures response.HTTP? && !NetworkManager.IsSuccessStatus(response.statusCode) && response.statusCode != 401 ==>
      Receive(Delivered(response), decode) == Failure(Network(ServerError(response.statusCode))) &&
      NetworkManager.ValidateResponse(client, response).error.ServerError? &&
      NetworkManager.ValidateResponse(client, response).error.statusCode == response.statusCode
  {
  }
}
