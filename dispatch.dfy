/**
 The single call path of the client, `ClouDNSAPI.make_request`: it forms the
 URL from the fixed base URL and the endpoint, accepts only GET (query
 parameters) and POST (body data), hands the request to the transport and
 maps a non-200 status to an API error carrying the decoded body.

 The transport is a function from request to response, so a call's result
 records the requests it handed over (`sent`); "no network access" is
 `sent == []`.
 */
module Dispatch {
  import opened Wire

  const BaseUrl: string := "https://api.cloudns.net"

  /** A request descriptor as handed to the transport. */
  datatype Request = Get(url: string, query: Params) | Post(url: string, body: Params)

  /** What the transport returns: a status code and the body decoded as JSON,
      `None` when the body is not JSON. */
  datatype Response = Response(status: int, body: Option<Json>)

  type Transport = Request -> Response

  /** How a call ends: the decoded body, or one of the errors the caller sees
      (`ValueError`, `ClouDNSAPIException`, the JSON decoder's error, or a
      `TypeError` raised by Python itself). */
  datatype Outcome =
    | Success(value: Json)
    | InvalidArgument(message: string)
    | ApiError(body: Json)
    | DecodeError
    | TypeError(message: string)

  /** The requests handed to the transport during one call, and its outcome. */
  datatype Exchange = Exchange(sent: seq<Request>, outcome: Outcome)

  datatype Result<T> = Ok(value: T) | Err(message: string)

  const UnsupportedMethod: string := "Unsupported HTTP method"

  function Url(endpoint: string): string {
    BaseUrl + "/" + endpoint
  }

  /** The full URL is the base URL, a slash and the endpoint, and different
      endpoints give different URLs. */
  lemma UrlShape(endpoint: string, other: string)
    ensures Url(endpoint)[..|BaseUrl| + 1] == "https://api.cloudns.net/"
    ensures Url(endpoint)[|BaseUrl| + 1..] == endpoint
    ensures Url(endpoint) == Url(other) ==> endpoint == other
  {
    assert Url(endpoint)[|BaseUrl| + 1..] == endpoint;
    assert Url(other)[|BaseUrl| + 1..] == other;
  }

  /** `p or {}`: an absent or empty parameter set becomes the empty dictionary. */
  function OrEmpty(p: Option<Params>): Params {
    if p.Some? && ParamsTruthy(p.value) then p.value else Dict(map[])
  }

  /** The request `make_request` builds, or the `ValueError` it raises for a
      method other than GET and POST. */
  function Prepare(endpoint: string, verb: string, params: Option<Params>, data: Option<Params>): (r: Result<Request>)
    ensures r.Ok? <==> verb == "GET" || verb == "POST"
    ensures r.Err? ==> r.message == UnsupportedMethod
    ensures r.Ok? ==> r.value.url == Url(endpoint)
    ensures verb == "GET" ==> r.value.Get? && r.value.query == OrEmpty(params)
    ensures verb == "POST" ==> r.value.Post? && r.value.body == OrEmpty(data)
  {
    var url := Url(endpoint);
    if verb == "GET" then Ok(Get(url, OrEmpty(params)))
    else if verb == "POST" then Ok(Post(url, OrEmpty(data)))
    else Err(UnsupportedMethod)
  }

  /** The status check after the transport returns. */
  function Conclude(response: Response): (o: Outcome)
    ensures o.Success? <==> response.status == 200 && response.body.Some?
    ensures o.ApiError? <==> response.status != 200 && response.body.Some?
    ensures o.DecodeError? <==> response.body.None?
    ensures o.Success? ==> o.value == response.body.value
    ensures o.ApiError? ==> o.body == response.body.value
  {
    match response.body
    case None => DecodeError
    case Some(b) => if response.status != 200 then ApiError(b) else Success(b)
  }

  /** `make_request(endpoint, verb, params, data)`. */
  function MakeRequest(endpoint: string, verb: string, params: Option<Params>, data: Option<Params>,
                       transport: Transport): (r: Exchange)
    ensures r.outcome.InvalidArgument? <==> verb != "GET" && verb != "POST"
    ensures r.outcome.InvalidArgument? ==> r == Exchange([], InvalidArgument(UnsupportedMethod))
    ensures !r.outcome.InvalidArgument? ==>
              |r.sent| == 1 && r.sent[0].url == Url(endpoint) && r.outcome == Conclude(transport(r.sent[0]))
    ensures verb == "GET" ==> r.sent == [Get(Url(endpoint), OrEmpty(params))]
    ensures verb == "POST" ==> r.sent == [Post(Url(endpoint), OrEmpty(data))]
  {
    match Prepare(endpoint, verb, params, data)
    case Err(message) => Exchange([], InvalidArgument(message))
    case Ok(request) => Exchange([request], Conclude(transport(request)))
  }

  /** An unsupported method fails the same way whatever the transport would
      have answered: the transport is never consulted. */
  lemma UnsupportedMethodNeverSends(endpoint: string, verb: string, params: Option<Params>,
                                    data: Option<Params>, t1: Transport, t2: Transport)
    requires verb != "GET" && verb != "POST"
    ensures MakeRequest(endpoint, verb, params, data, t1) == MakeRequest(endpoint, verb, params, data, t2)
    ensures MakeRequest(endpoint, verb, params, data, t1).sent == []
  {
  }

  /** A POST sends `data or {}` and ignores `params`; a GET sends
      `params or {}` and ignores `data`. */
  lemma PayloadChoice(endpoint: string, p1: Option<Params>, p2: Option<Params>, d1: Option<Params>,
                      d2: Option<Params>, t: Transport)
    ensures MakeRequest(endpoint, "POST", p1, d1, t) == MakeRequest(endpoint, "POST", p2, d1, t)
    ensures MakeRequest(endpoint, "GET", p1, d1, t) == MakeRequest(endpoint, "GET", p1, d2, t)
  {
  }

  /** A POST given only `params=` sends an empty body, whatever the
      parameters were. */
  lemma PostWithoutDataSendsEmptyBody(endpoint: string, params: Option<Params>, t: Transport)
    ensures MakeRequest(endpoint, "POST", params, None, t).sent == [Post(Url(endpoint), Dict(map[]))]
  {
  }

  /** A non-empty payload is sent as given; an absent or empty one as `{}`. */
  lemma PayloadSentAsGiven(endpoint: string, verb: string, p: Params, t: Transport)
    requires verb == "GET" || verb == "POST"
    ensures var r := if verb == "GET" then MakeRequest(endpoint, verb, Some(p), None, t)
                     else MakeRequest(endpoint, verb, None, Some(p), t);
            var sentPayload := if verb == "GET" then r.sent[0].query else r.sent[0].body;
            (ParamsTruthy(p) ==> sentPayload == p) && (!ParamsTruthy(p) ==> sentPayload == Dict(map[]))
  {
  }
}
