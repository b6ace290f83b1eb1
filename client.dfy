/** The dispatcher: a client holding its default headers, which turns an
    endpoint into the request it hands to the HTTP transport. The transport
    itself (executing the request and decoding the body into the endpoint's
    response type) is a parameter. */
module Client {
  import opened Wrappers
  import opened Json
  import opened Responses
  import opened Endpoints

  const TELRAAM_NET: string := "https://telraam-api.net"

  /** The API version the library speaks. */
  const VER: string := "v1"

  /** What every URL starts with. */
  const API_ROOT: string := "https://telraam-api.net/v1/"

  /** The URL of an endpoint: the API root, its path and, when it has one,
      `/` and its path parameter. */
  function Url(e: Endpoint): (u: string)
    ensures |API_ROOT| + |Path(e)| <= |u| && u[..|API_ROOT|] == API_ROOT
    ensures PathParam(e).Some? ==>
      |PathParam(e).value| + 1 <= |u| && u[|u| - |PathParam(e).value| - 1..] == "/" + PathParam(e).value
  {
    var u := TELRAAM_NET + "/" + VER + "/" + Path(e)
      + match PathParam(e) case Some(p) => "/" + p case None => "";
    assert TELRAAM_NET + "/" + VER + "/" == API_ROOT;
    u
  }

  /** The body of an endpoint's request: its payload as a JSON object. Only
      the POST endpoint sends one; GET requests go without a body. */
  function Body(e: Endpoint): (b: Option<seq<(string, Json)>>)
    requires e.Traffic? ==> Serializable(e.request)
    ensures b.Some? <==> Method(e) == POST
    ensures b.Some? ==> b.value == SerializeTrafficRequest(e.request)
  {
    match Payload(e)
    case Some(request) => Some(SerializeTrafficRequest(request))
    case None => None
  }

  /** A header value and whether it is marked sensitive (kept out of debug
      output). */
  datatype HeaderValue = HeaderValue(text: string, isSensitive: bool)

  // Header names are case-insensitive; they are kept in lower case.
  const ACCEPT: string := "accept"
  const CONTENT_TYPE: string := "content-type"
  const API_KEY: string := "x-api-key"
  const APPLICATION_JSON: string := "application/json"

  /** The headers every request carries: exactly three, the token verbatim
      and the only sensitive one. */
  function DefaultHeaders(apiToken: string): (h: map<string, HeaderValue>)
    ensures h.Keys == {ACCEPT, CONTENT_TYPE, API_KEY}
    ensures h[API_KEY].text == apiToken
    ensures forall name :: name in h ==> (h[name].isSensitive <==> name == API_KEY)
    ensures h[ACCEPT].text == APPLICATION_JSON && h[CONTENT_TYPE].text == APPLICATION_JSON
  {
    map[ACCEPT := HeaderValue(APPLICATION_JSON, false),
        CONTENT_TYPE := HeaderValue(APPLICATION_JSON, false),
        API_KEY := HeaderValue(apiToken, true)]
  }

  /** A header map filled in place. */
  class HeaderMap {
    var entries: map<string, HeaderValue>

    constructor ()
      ensures entries == map[]
    {
      entries := map[];
    }

    /** Sets `name` to `value`, returning the value it replaces. */
    method Insert(name: string, value: HeaderValue) returns (previous: Option<HeaderValue>)
      modifies this
      ensures entries == old(entries)[name := value]
      ensures previous == if name in old(entries) then Some(old(entries)[name]) else None
    {
      previous := if name in entries then Some(entries[name]) else None;
      entries := entries[name := value];
    }
  }

  /** Why a client could not be built: the token is not a valid header
      value. */
  datatype ClientError = InvalidApiToken

  /** Why sending failed: the transport or decoding failed, not the status. */
  datatype SendError = TransportFailed | DecodeFailed(error: DeError)

  /** Everything `send` hands to the HTTP transport, with the response type
      the body is to be decoded into. */
  datatype Outgoing = Outgoing(
    verb: HttpMethod,
    url: string,
    query: map<string, Option<string>>,
    headers: map<string, HeaderValue>,
    body: Option<seq<(string, Json)>>,
    expects: ResponseKind)

  /** The request `send` builds for an endpoint: a body exactly on POST, no
      query, the given headers, under the API root, and decoded into the
      endpoint's response type. */
  function RequestFor(e: Endpoint, headers: map<string, HeaderValue>): (o: Outgoing)
    requires e.Traffic? ==> Serializable(e.request)
    ensures o.verb == Method(e) && o.url == Url(e) && o.query == Params(e) && o.body == Body(e)
    ensures o.body.Some? <==> o.verb == POST
    ensures o.query == map[] && o.headers == headers
    ensures |API_ROOT| <= |o.url| && o.url[..|API_ROOT|] == API_ROOT
    ensures o.expects == ResponseOf(e)
  {
    Outgoing(Method(e), Url(e), Params(e), headers, Body(e), ResponseOf(e))
  }

  /** A transport that decodes every successful answer into the response
      type the request names, as typed deserialisation does. */
  ghost predicate Honours(transport: Outgoing -> Result<AnyResponse, SendError>) {
    forall o :: transport(o).Success? ==> KindOf(transport(o).value) == o.expects
  }

  class TelraamClient {
    /** Fixed at construction; sent with every request. */
    const defaultHeaders: map<string, HeaderValue>

    constructor WithDefaultHeaders(headers: map<string, HeaderValue>)
      ensures defaultHeaders == headers
    {
      defaultHeaders := headers;
    }

    /** Builds a client for an API token. Whether the token is a valid header
        value is decided by the HTTP library and given here as a predicate; an
        invalid token fails construction before any header is inserted. */
    static method New(apiToken: string, isValidHeaderValue: string -> bool)
      returns (r: Result<TelraamClient, ClientError>)
      ensures r.Failure? <==> !isValidHeaderValue(apiToken)
      ensures r.Failure? ==> r.error == InvalidApiToken
      ensures r.Success? ==> fresh(r.value) && r.value.defaultHeaders == DefaultHeaders(apiToken)
    {
      var headers := new HeaderMap();
      if !isValidHeaderValue(apiToken) {
        return Failure(InvalidApiToken);
      }
      var token := HeaderValue(apiToken, false);
      var replaced := headers.Insert(ACCEPT, HeaderValue(APPLICATION_JSON, false));
      replaced := headers.Insert(CONTENT_TYPE, HeaderValue(APPLICATION_JSON, false));
      token := token.(isSensitive := true);
      replaced := headers.Insert(API_KEY, token);
      var client := new TelraamClient.WithDefaultHeaders(headers.entries);
      r := Success(client);
    }

    /** Builds the request for `e`, growing the URL in place, and hands it to
        the transport. The result is the transport's, unchanged: the status
        in a decoded body is not inspected here. */
    method Send(e: Endpoint, transport: Outgoing -> Result<AnyResponse, SendError>)
      returns (r: Result<AnyResponse, SendError>)
      requires e.Traffic? ==> Serializable(e.request)
      ensures r == transport(RequestFor(e, defaultHeaders))
      ensures Honours(transport) && r.Success? ==> KindOf(r.value) == ResponseOf(e)
    {
      var url := TELRAAM_NET + "/" + VER + "/" + Path(e);
      match PathParam(e) {
        case Some(p) =>
          url := url + ['/'];
          url := url + p;
          assert url == Url(e);
        case None =>
          assert url == Url(e);
      }
      var body: Option<seq<(string, Json)>> := None;
      match Payload(e) {
        case Some(request) => body := Some(SerializeTrafficRequest(request));
        case None =>
      }
      assert body == Body(e);
      ghost var request := RequestFor(e, defaultHeaders);
      assert Outgoing(Method(e), url, Params(e), defaultHeaders, body, ResponseOf(e)) == request;
      r := transport(Outgoing(Method(e), url, Params(e), defaultHeaders, body, ResponseOf(e)));
      assert request.expects == ResponseOf(e);
    }
  }

  // Properties of the URL.

  /** Every URL starts with the API root followed at once by the path. */
  lemma UrlStartsWithRootAndPath(e: Endpoint)
    ensures var u := Url(e); var n := |API_ROOT| + |Path(e)|;
      |u| >= n && u[..|API_ROOT|] == API_ROOT && u[|API_ROOT|..n] == Path(e)
    ensures PathParam(e).None? ==> Url(e) == API_ROOT + Path(e)
    ensures PathParam(e).Some? ==> Url(e) == API_ROOT + Path(e) + "/" + PathParam(e).value
  {
    assert TELRAAM_NET + "/" + VER + "/" == API_ROOT;
    var suffix := match PathParam(e) case Some(p) => "/" + p case None => "";
    var u := API_ROOT + Path(e) + suffix;
    match PathParam(e) {
      case None => assert Url(e) == u;
      case Some(p) => assert Url(e) == u;
    }
    assert u[|API_ROOT|..|API_ROOT| + |Path(e)|] == Path(e);
  }

  /** The welcome endpoint's empty path gives exactly the API root. */
  lemma WelcomeUrlIsRoot()
    ensures Url(Welcome) == "https://telraam-api.net/v1/"
  {
  }

  /** The two camera listings share their path and differ only by the
      appended MAC identifier. */
  lemma CameraUrlsDifferByMac(mac: string)
    ensures Path(AllAvailableCameras) == Path(CameraByMacId(mac))
    ensures Url(CameraByMacId(mac)) == Url(AllAvailableCameras) + "/" + mac
  {
  }

  const PARAMLESS_ROUTES: set<string> :=
    {"", "reports/traffic", "reports/traffic_snapshot_live", "cameras", "segments/all"}

  predicate HasPrefix(s: string, prefix: string) {
    |prefix| <= |s| && s[..|prefix|] == prefix
  }

  /** The path and path parameter a route below the API root names, when the
      parameter holds no `/`. */
  function ParseRoute(route: string): (r: Option<(string, Option<string>)>) {
    if route in PARAMLESS_ROUTES then Some((route, None))
    else if HasPrefix(route, "cameras/segment/") && '/' !in route[16..] then
      Some(("cameras/segment", Some(route[16..])))
    else if HasPrefix(route, "segments/id/") && '/' !in route[12..] then
      Some(("segments/id", Some(route[12..])))
    else if HasPrefix(route, "cameras/") && '/' !in route[8..] then
      Some(("cameras", Some(route[8..])))
    else None
  }

  /** Reads a URL back into the path and path parameter that built it. */
  function ParseUrl(url: string): (r: Option<(string, Option<string>)>) {
    if HasPrefix(url, API_ROOT) then ParseRoute(url[|API_ROOT|..]) else None
  }

  predicate SlashFreeParam(e: Endpoint) {
    PathParam(e).Some? ==> '/' !in PathParam(e).value
  }

  lemma ParseSegmentCamerasRoute(id: string)
    requires '/' !in id
    ensures ParseRoute("cameras/segment/" + id) == Some(("cameras/segment", Some(id)))
  {
    var route := "cameras/segment/" + id;
    assert route !in PARAMLESS_ROUTES by { assert |route| >= 16 && route[0] == 'c'; }
    assert route[16..] == id;
  }

  lemma ParseSegmentByIdRoute(id: string)
    requires '/' !in id
    ensures ParseRoute("segments/id/" + id) == Some(("segments/id", Some(id)))
  {
    var route := "segments/id/" + id;
    assert route !in PARAMLESS_ROUTES by { assert route[0] == 's' && route[9] == 'i'; }
    assert !HasPrefix(route, "cameras/segment/") by { assert route[0] == 's'; }
    assert route[12..] == id;
  }

  lemma ParseMacRoute(mac: string)
    requires '/' !in mac
    ensures ParseRoute("cameras/" + mac) == Some(("cameras", Some(mac)))
  {
    var route := "cameras/" + mac;
    assert route !in PARAMLESS_ROUTES by { assert |route| >= 8 && route[0] == 'c'; }
    assert !HasPrefix(route, "cameras/segment/") by {
      if |route| >= 16 {
        assert route[15] == mac[7] && mac[7] in mac;
      }
    }
    assert !HasPrefix(route, "segments/id/") by { assert route[6] == 's'; }
    assert route[8..] == mac;
  }

  /** A URL determines the path and path parameter it was built from, as long
      as the parameter holds no `/`. */
  lemma UrlRoundTrip(e: Endpoint)
    requires SlashFreeParam(e)
    ensures ParseUrl(Url(e)) == Some((Path(e), PathParam(e)))
  {
    UrlStartsWithRootAndPath(e);
    var route := Url(e)[|API_ROOT|..];
    match e {
      case CamerasBySegmentId(id) =>
        assert route == "cameras/segment/" + id;
        ParseSegmentCamerasRoute(id);
      case SegmentById(id) =>
        assert route == "segments/id/" + id;
        ParseSegmentByIdRoute(id);
      case CameraByMacId(mac) =>
        assert route == "cameras/" + mac;
        ParseMacRoute(mac);
      case _ =>
        assert route == Path(e);
    }
  }

  /** Identifiers are appended as they are: a MAC identifier holding a `/`
      gives the same URL as a lookup by segment. */
  lemma SlashInMacAliasesSegmentLookup()
    ensures Url(CameraByMacId("segment/348917")) == Url(CamerasBySegmentId("348917"))
  {
  }
}
