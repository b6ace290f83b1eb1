/** The closed set of API operations. Each endpoint fixes a path below the
    API version, an HTTP method, the type of its request body and the type of
    its response, and may carry a body or a path parameter. */
module Endpoints {
  import opened Wrappers
  import opened Json
  import opened Rfc3339
  import opened Responses

  datatype HttpMethod = GET | POST

  /** How detailed the traffic statistics should be. */
  datatype TrafficLevel = Segments | Instance

  /** The level a query uses unless told otherwise. */
  const DEFAULT_TRAFFIC_LEVEL: TrafficLevel := Segments

  /** The wire name of a traffic level; the default level is the one
      written "segments". */
  function LevelName(l: TrafficLevel): (s: string)
    ensures s == "segments" || s == "instance"
    ensures s == "segments" <==> l == DEFAULT_TRAFFIC_LEVEL
  {
    match l
    case Segments => "segments"
    case Instance => "instance"
  }

  /** Reads a wire name back; the partner of LevelName. */
  function ParseLevel(s: string): (r: Option<TrafficLevel>)
    ensures r.Some? <==> s == "segments" || s == "instance"
  {
    if s == "segments" then Some(Segments)
    else if s == "instance" then Some(Instance)
    else None
  }

  /** The two levels have distinct wire names, and each name reads back as
      its level. */
  lemma LevelNameRoundTrip(l: TrafficLevel, s: string)
    ensures ParseLevel(LevelName(l)) == Some(l)
    ensures ParseLevel(s).Some? ==> LevelName(ParseLevel(s).value) == s
  {
  }

  /** The body of a traffic query. */
  datatype TrafficRequest = TrafficRequest(
    level: TrafficLevel, format: string, id: string,
    timeStart: DateTime, timeEnd: DateTime)

  /** Both timestamps are instants the formatter accepts. */
  predicate Serializable(r: TrafficRequest) {
    Formattable(r.timeStart) && Formattable(r.timeEnd)
  }

  /** The JSON member names of a traffic query's fields. */
  const LEVEL_KEY: string := "level"
  const FORMAT_KEY: string := "format"
  const ID_KEY: string := "id"
  const TIME_START_KEY: string := "time_start"
  const TIME_END_KEY: string := "time_end"

  /** An instant as a JSON string in the millisecond shape. */
  function TimeField(t: DateTime): (j: Json)
    requires Formattable(t)
    ensures j.JString? && HasMillisShape(j.s)
  {
    JString(FormatMillis(t))
  }

  /** The JSON object a traffic query is sent as, with its fields in
      declaration order. */
  function SerializeTrafficRequest(r: TrafficRequest): (fields: seq<(string, Json)>)
    requires Serializable(r)
    ensures |fields| == 5
    ensures fields[0] == (LEVEL_KEY, JString(LevelName(r.level)))
    ensures fields[1] == (FORMAT_KEY, JString(r.format)) && fields[2] == (ID_KEY, JString(r.id))
    ensures fields[3].0 == TIME_START_KEY && fields[3].1.JString? && HasMillisShape(fields[3].1.s)
    ensures fields[4].0 == TIME_END_KEY && fields[4].1.JString? && HasMillisShape(fields[4].1.s)
  {
    [ (LEVEL_KEY, JString(LevelName(r.level))),
      (FORMAT_KEY, JString(r.format)),
      (ID_KEY, JString(r.id)),
      (TIME_START_KEY, TimeField(r.timeStart)),
      (TIME_END_KEY, TimeField(r.timeEnd)) ]
  }

  /** The serialized timestamps read back as the request's instants,
      truncated to milliseconds. */
  lemma SerializedTimesReadBack(r: TrafficRequest)
    requires Serializable(r)
    ensures ParseMillis(SerializeTrafficRequest(r)[3].1.s) == Some(TruncateToMillis(r.timeStart))
    ensures ParseMillis(SerializeTrafficRequest(r)[4].1.s) == Some(TruncateToMillis(r.timeEnd))
  {
    FormatThenParse(r.timeStart);
    FormatThenParse(r.timeEnd);
  }

  /** What an endpoint sends as its body: a traffic query, or nothing (the
      unit type). */
  datatype RequestKind = UnitRequest | TrafficRequestBody

  /** The eight operations of the API, each carrying its per-call data. */
  datatype Endpoint =
    | Welcome
    | Traffic(request: TrafficRequest)
    | LiveTrafficSnapshot
    | AllAvailableCameras
    | CamerasBySegmentId(segmentId: string)
    | CameraByMacId(macId: string)
    | AllSegments
    | SegmentById(bySegmentId: string)

  /** The path below the API version. Only Welcome has the empty path; every other path is non-empty and
      has no `/` at either end, so joining it to the root and a parameter
      with single slashes never doubles a slash. */
  function Path(e: Endpoint): (p: string)
    ensures p == "" <==> e.Welcome?
    ensures p != "" ==> p[0] != '/' && p[|p| - 1] != '/'
  {
    match e
    case Welcome => ""
    case Traffic(_) => "reports/traffic"
    case LiveTrafficSnapshot => "reports/traffic_snapshot_live"
    case AllAvailableCameras => "cameras"
    case CamerasBySegmentId(_) => "cameras/segment"
    case CameraByMacId(_) => "cameras"
    case AllSegments => "segments/all"
    case SegmentById(_) => "segments/id"
  }

  /** The two endpoints are the same operation, whatever data they carry. */
  predicate SameOperation(a: Endpoint, b: Endpoint) {
    || (a.Welcome? && b.Welcome?)
    || (a.Traffic? && b.Traffic?)
    || (a.LiveTrafficSnapshot? && b.LiveTrafficSnapshot?)
    || (a.AllAvailableCameras? && b.AllAvailableCameras?)
    || (a.CamerasBySegmentId? && b.CamerasBySegmentId?)
    || (a.CameraByMacId? && b.CameraByMacId?)
    || (a.AllSegments? && b.AllSegments?)
    || (a.SegmentById? && b.SegmentById?)
  }

  predicate ListsCameras(e: Endpoint) {
    e.AllAvailableCameras? || e.CameraByMacId?
  }

  /** Paths tell operations apart, except that the listing of all cameras and
      the lookup by MAC identifier share one. */
  lemma SharedPaths(a: Endpoint, b: Endpoint)
    ensures Path(a) == Path(b) <==> SameOperation(a, b) || (ListsCameras(a) && ListsCameras(b))
  {
  }

  /** The HTTP method: only the traffic query is a POST. */
  function Method(e: Endpoint): (m: HttpMethod)
    ensures m == POST <==> e.Traffic?
  {
    if e.Traffic? then POST else GET
  }

  /** The response type the endpoint is answered with. */
  function ResponseOf(e: Endpoint): (k: ResponseKind)
    ensures k == TrafficKind <==> Method(e) == POST
    ensures PathParam(e).Some? ==> k == CamerasKind || k == SegmentKind
  {
    match e
    case Welcome => WelcomeKind
    case Traffic(_) => TrafficKind
    case LiveTrafficSnapshot => TrafficSnapshotKind
    case AllAvailableCameras => CamerasKind
    case CamerasBySegmentId(_) => CamerasKind
    case CameraByMacId(_) => CamerasKind
    case AllSegments => SegmentKind
    case SegmentById(_) => SegmentKind
  }

  /** The request body type: a traffic query for Traffic, unit otherwise. */
  function RequestOf(e: Endpoint): (k: RequestKind)
    ensures k == TrafficRequestBody <==> Method(e) == POST
  {
    if e.Traffic? then TrafficRequestBody else UnitRequest
  }

  /** The body to send. By default there is none; Traffic overrides this to
      send the query it carries. */
  function Payload(e: Endpoint): (p: Option<TrafficRequest>)
    ensures p.Some? <==> Method(e) == POST
    ensures p.Some? ==> RequestOf(e) == TrafficRequestBody && p == Some(e.request)
  {
    match e
    case Traffic(request) => Some(request)
    case _ => None
  }

  /** Query parameters: no endpoint overrides the default, which is empty. */
  function Params(e: Endpoint): (q: map<string, Option<string>>)
    ensures |q| == 0
  {
    map[]
  }

  /** The extra path segment. By default there is none; the three lookups by
      identifier override this to append the identifier they carry. */
  function PathParam(e: Endpoint): (p: Option<string>)
    ensures p.Some? <==> e.CamerasBySegmentId? || e.CameraByMacId? || e.SegmentById?
    ensures p.Some? ==> Payload(e).None? && Method(e) == GET
  {
    match e
    case CamerasBySegmentId(id) => Some(id)
    case CameraByMacId(mac) => Some(mac)
    case SegmentById(id) => Some(id)
    case _ => None
  }

  /** The path parameter is the carried identifier, unchanged. */
  lemma PathParamIsCarriedId(e: Endpoint)
    ensures e.CamerasBySegmentId? ==> PathParam(e) == Some(e.segmentId)
    ensures e.CameraByMacId? ==> PathParam(e) == Some(e.macId)
    ensures e.SegmentById? ==> PathParam(e) == Some(e.bySegmentId)
  {
  }

  /** No endpoint has both a body and a path parameter. */
  lemma NoPayloadWithPathParam(e: Endpoint)
    ensures !(Payload(e).Some? && PathParam(e).Some?)
  {
  }

  /** The response wiring: cameras endpoints share one response type, and so
      do the segment endpoints. */
  lemma ResponseWiring(e: Endpoint)
    ensures ResponseOf(e) == CamerasKind <==>
      e.AllAvailableCameras? || e.CamerasBySegmentId? || e.CameraByMacId?
    ensures ResponseOf(e) == SegmentKind <==> e.AllSegments? || e.SegmentById?
    ensures ResponseOf(e) == WelcomeKind <==> e.Welcome?
    ensures ResponseOf(e) == TrafficKind <==> e.Traffic?
    ensures ResponseOf(e) == TrafficSnapshotKind <==> e.LiveTrafficSnapshot?
  {
  }
}
