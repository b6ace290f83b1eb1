/** The typed responses of the API: each is the status envelope plus its own
    payload, and every payload accessor releases the payload only after the
    status check. Also the "yes"/"no" codec of the camera calibration flag and
    the decoding of the status envelope from a response body. */
module Responses {
  import opened Wrappers
  import opened Json
  import opened StatusEnvelope
  import opened Rfc3339

  /** A GeoJSON document, kept as the JSON it was read from and not
      interpreted further. */
  datatype GeoJson = GeoJson(document: Json)

  /** One traffic aggregate; the floating-point counts, uptime and speed
      histograms are not part of this model. */
  datatype Report = Report(
    instanceId: int, segmentId: int, date: DateTime,
    interval: string, direction: nat, timezone: string)

  /** One camera instance; `timeEnd` is None while the instance is active. */
  datatype Camera = Camera(
    instanceId: int, mac: nat, userId: int, segmentId: int,
    direction: bool, status: string, manual: bool,
    timeAdded: DateTime, timeEnd: Option<DateTime>,
    lastDataPackage: DateTime, firstDataPackage: DateTime,
    pedestriansLeft: bool, pedestriansRight: bool,
    bikesLeft: bool, bikesRight: bool,
    carsLeft: bool, carsRight: bool,
    isCalibrationDone: bool)

  datatype WelcomeResponse = WelcomeResponse(status: Status)
  datatype TrafficResponse = TrafficResponse(status: Status, reports: seq<Report>)
  datatype TrafficSnapshotResponse = TrafficSnapshotResponse(status: Status, geo: GeoJson)
  datatype CamerasResponse = CamerasResponse(status: Status, cameras: seq<Camera>)
  datatype SegmentResponse = SegmentResponse(status: Status, segment: GeoJson)

  /** Which response type a value is; endpoints name the one they expect. */
  datatype ResponseKind =
    | WelcomeKind | TrafficKind | TrafficSnapshotKind | CamerasKind | SegmentKind

  /** Any one of the five response types. */
  datatype AnyResponse =
    | AnyWelcome(welcome: WelcomeResponse)
    | AnyTraffic(traffic: TrafficResponse)
    | AnyTrafficSnapshot(snapshot: TrafficSnapshotResponse)
    | AnyCameras(cameras: CamerasResponse)
    | AnySegment(segment: SegmentResponse)

  function KindOf(r: AnyResponse): (k: ResponseKind) {
    match r
    case AnyWelcome(_) => WelcomeKind
    case AnyTraffic(_) => TrafficKind
    case AnyTrafficSnapshot(_) => TrafficSnapshotKind
    case AnyCameras(_) => CamerasKind
    case AnySegment(_) => SegmentKind
  }

  /** The status every response carries, readable without any check. It is
      the status each payload accessor checks: an accessor fails exactly when
      this status fails the check. */
  function StatusOf(r: AnyResponse): (s: Status)
    ensures r.AnyTraffic? ==> (Reports(r.traffic).Failure? <==> TryToError(s).Failure?)
    ensures r.AnyTrafficSnapshot? ==> (Snapshot(r.snapshot).Failure? <==> TryToError(s).Failure?)
    ensures r.AnyCameras? ==> (Cameras(r.cameras).Failure? <==> TryToError(s).Failure?)
    ensures r.AnySegment? ==> (Segments(r.segment).Failure? <==> TryToError(s).Failure?)
    ensures r.AnyTraffic? && Reports(r.traffic).Failure? ==> Reports(r.traffic).error == Non200Response(s)
    ensures r.AnyTrafficSnapshot? && Snapshot(r.snapshot).Failure? ==>
      Snapshot(r.snapshot).error == Non200Response(s)
    ensures r.AnyCameras? && Cameras(r.cameras).Failure? ==> Cameras(r.cameras).error == Non200Response(s)
    ensures r.AnySegment? && Segments(r.segment).Failure? ==> Segments(r.segment).error == Non200Response(s)
  {
    match r
    case AnyWelcome(w) => w.status
    case AnyTraffic(t) => t.status
    case AnyTrafficSnapshot(t) => t.status
    case AnyCameras(c) => c.status
    case AnySegment(s) => s.status
  }

  // Payload accessors. Each borrowing accessor and its consuming `Take` twin
  // run the status check first and return the payload only when it passes.

  function Reports(r: TrafficResponse): (res: Result<seq<Report>, Error>)
    ensures res.Success? <==> r.status.statusCode <= SUCCESS_MAX
    ensures res.Success? ==> res.value == r.reports
    ensures res.Failure? ==> res.error == Non200Response(r.status)
  {
    var _ :- TryToError(r.status);
    Success(r.reports)
  }

  function TakeReports(r: TrafficResponse): (res: Result<seq<Report>, Error>)
    ensures res.Success? <==> r.status.statusCode <= SUCCESS_MAX
    ensures res.Success? ==> res.value == r.reports
    ensures res.Failure? ==> res.error == Non200Response(r.status)
  {
    var _ :- TryIntoError(r.status);
    Success(r.reports)
  }

  function Snapshot(r: TrafficSnapshotResponse): (res: Result<GeoJson, Error>)
    ensures res.Success? <==> r.status.statusCode <= SUCCESS_MAX
    ensures res.Success? ==> res.value == r.geo
    ensures res.Failure? ==> res.error == Non200Response(r.status)
  {
    var _ :- TryToError(r.status);
    Success(r.geo)
  }

  function TakeSnapshot(r: TrafficSnapshotResponse): (res: Result<GeoJson, Error>)
    ensures res.Success? <==> r.status.statusCode <= SUCCESS_MAX
    ensures res.Success? ==> res.value == r.geo
    ensures res.Failure? ==> res.error == Non200Response(r.status)
  {
    var _ :- TryIntoError(r.status);
    Success(r.geo)
  }

  function Cameras(r: CamerasResponse): (res: Result<seq<Camera>, Error>)
    ensures res.Success? <==> r.status.statusCode <= SUCCESS_MAX
    ensures res.Success? ==> res.value == r.cameras
    ensures res.Failure? ==> res.error == Non200Response(r.status)
  {
    var _ :- TryToError(r.status);
    Success(r.cameras)
  }

  function TakeCameras(r: CamerasResponse): (res: Result<seq<Camera>, Error>)
    ensures res.Success? <==> r.status.statusCode <= SUCCESS_MAX
    ensures res.Success? ==> res.value == r.cameras
    ensures res.Failure? ==> res.error == Non200Response(r.status)
  {
    var _ :- TryIntoError(r.status);
    Success(r.cameras)
  }

  function Segments(r: SegmentResponse): (res: Result<GeoJson, Error>)
    ensures res.Success? <==> r.status.statusCode <= SUCCESS_MAX
    ensures res.Success? ==> res.value == r.segment
    ensures res.Failure? ==> res.error == Non200Response(r.status)
  {
    var _ :- TryToError(r.status);
    Success(r.segment)
  }

  function TakeSegments(r: SegmentResponse): (res: Result<GeoJson, Error>)
    ensures res.Success? <==> r.status.statusCode <= SUCCESS_MAX
    ensures res.Success? ==> res.value == r.segment
    ensures res.Failure? ==> res.error == Non200Response(r.status)
  {
    var _ :- TryIntoError(r.status);
    Success(r.segment)
  }

  /** Every consuming accessor reaches the same outcome, with the same payload
      or the same error, as its borrowing twin. */
  lemma TakeAgreesWithBorrow(
    t: TrafficResponse, s: TrafficSnapshotResponse, c: CamerasResponse, g: SegmentResponse)
    ensures TakeReports(t) == Reports(t)
    ensures TakeSnapshot(s) == Snapshot(s)
    ensures TakeCameras(c) == Cameras(c)
    ensures TakeSegments(g) == Segments(g)
  {
  }

  // The "yes"/"no" codec of `Camera.isCalibrationDone`.

  const YES_NO_VARIANTS: seq<string> := ["yes", "no"]
  const YES_NO_EXPECTING: string := "a 'yes' or 'no' value"

  /** Decodes the flag: only the strings "yes" and "no" are accepted; any other
      string is an unknown variant, and a value that is not a string at all is
      of the wrong type. */
  function FromYesNo(v: Json): (r: Result<bool, DeError>)
    ensures r.Success? <==> v == JString("yes") || v == JString("no")
    ensures r.Success? ==> (r.value <==> v == JString("yes"))
    ensures v.JString? && r.Failure? ==> r.error == UnknownVariant(v.s, YES_NO_VARIANTS)
    ensures !v.JString? ==> r == Failure(InvalidType(YES_NO_EXPECTING))
  {
    match v
    case JString(s) =>
      if s == "yes" then Success(true)
      else if s == "no" then Success(false)
      else Failure(UnknownVariant(s, YES_NO_VARIANTS))
    case _ => Failure(InvalidType(YES_NO_EXPECTING))
  }

  /** Encodes the flag as the string "yes" or "no". */
  function ToYesNo(b: bool): (v: Json)
    ensures v.JString? && v.s in YES_NO_VARIANTS
  {
    if b then JString("yes") else JString("no")
  }

  /** Encoding then decoding is the identity on booleans. */
  lemma YesNoEncodeDecode(b: bool)
    ensures FromYesNo(ToYesNo(b)) == Success(b)
  {
  }

  /** Decoding then encoding is the identity on the accepted strings, and the
      accepted strings are exactly "yes" and "no". */
  lemma YesNoDecodeEncode(s: string)
    ensures FromYesNo(JString(s)).Success? <==> s in YES_NO_VARIANTS
    ensures FromYesNo(JString(s)).Success? ==> ToYesNo(FromYesNo(JString(s)).value) == JString(s)
  {
  }

  // Decoding the status envelope from a response body.

  /** Status codes are `usize`; the model takes the 64-bit width. */
  const USIZE_MAX: int := 0xFFFF_FFFF_FFFF_FFFF

  /** The least integer the JSON reader keeps as a signed integer; below it
      (and above USIZE_MAX) a number is read as a float. */
  const I64_MIN: int := -0x8000_0000_0000_0000

  /** `status_code` may be absent, and is then 0. A present code must be a
      non-negative integer within `usize`; a negative integer is an invalid
      value, and a number read as a float is of the wrong type. */
  function DecodeStatusCode(body: Object): (r: Result<nat, DeError>)
    ensures "status_code" !in body ==> r == Success(0)
    ensures r.Success? ==> r.value <= USIZE_MAX
    ensures r.Success? && "status_code" in body ==> body["status_code"] == JNumber(r.value)
    ensures "status_code" in body && body["status_code"].JNumber? && 0 <= body["status_code"].n <= USIZE_MAX
      ==> r == Success(body["status_code"].n)
    ensures "status_code" in body && body["status_code"].JNumber? && I64_MIN <= body["status_code"].n < 0
      ==> r == Failure(InvalidValue("usize"))
    ensures "status_code" in body && !body["status_code"].JNumber? ==> r == Failure(InvalidType("usize"))
    ensures ("status_code" in body && body["status_code"].JNumber?
             && !(I64_MIN <= body["status_code"].n <= USIZE_MAX))
      ==> r == Failure(InvalidType("usize"))
  {
    if "status_code" !in body then Success(0)
    else
      match body["status_code"]
      case JNumber(n) =>
        if 0 <= n <= USIZE_MAX then Success(n)
        else if I64_MIN <= n < 0 then Failure(InvalidValue("usize"))
        else Failure(InvalidType("usize"))
      case _ => Failure(InvalidType("usize"))
  }

  /** `message` is required and may also be spelled `msg`, but not both. */
  function DecodeMessage(body: Object): (r: Result<string, DeError>)
    ensures r.Success? ==> ("message" in body) != ("msg" in body)
    ensures r.Success? ==> JString(r.value) == (if "message" in body then body["message"] else body["msg"])
    ensures ("message" in body) != ("msg" in body) && (if "message" in body then body["message"] else body["msg"]).JString?
      ==> r.Success?
    ensures "message" in body && "msg" in body ==> r == Failure(DuplicateField("message"))
    ensures "message" !in body && "msg" !in body ==> r == Failure(MissingField("message"))
  {
    if "message" in body && "msg" in body then Failure(DuplicateField("message"))
    else if "message" in body || "msg" in body then
      match (if "message" in body then body["message"] else body["msg"])
      case JString(s) => Success(s)
      case _ => Failure(InvalidType("a string"))
    else Failure(MissingField("message"))
  }

  /** The envelope of a typical success body: a code of 200 with a message
      decodes to exactly that status, which passes the check. */
  lemma DecodeOkBody(text: string)
    ensures DecodeStatus(map["status_code" := JNumber(200), "message" := JString(text)])
      == Success(Status(200, text))
    ensures TryToError(Status(200, text)).Success?
  {
    var body := map["status_code" := JNumber(200), "message" := JString(text)];
    assert "msg" !in body;
  }

  /** The status envelope read from the top level of a body; other fields are
      left for the payload. */
  function DecodeStatus(body: Object): (r: Result<Status, DeError>)
    ensures r.Success? <==> DecodeStatusCode(body).Success? && DecodeMessage(body).Success?
    ensures r.Success? ==> r.value == Status(DecodeStatusCode(body).value, DecodeMessage(body).value)
  {
    var code :- DecodeStatusCode(body);
    var message :- DecodeMessage(body);
    Success(Status(code, message))
  }

  function DecodeWelcome(body: Object): (r: Result<WelcomeResponse, DeError>)
    ensures r.Success? <==> DecodeStatus(body).Success?
    ensures r.Success? ==> r.value.status == DecodeStatus(body).value
  {
    var status :- DecodeStatus(body);
    Success(WelcomeResponse(status))
  }

  /** The status a decoded welcome response exposes is the status decoded
      from its body. */
  lemma DecodedWelcomeStatus(body: Object)
    ensures DecodeWelcome(body).Success? ==>
      StatusOf(AnyWelcome(DecodeWelcome(body).value)) == DecodeStatus(body).value
  {
  }

  /** A body holding only `msg` decodes to a welcome whose status carries that
      text with code 0, which passes the status check. */
  lemma WelcomeFromMsgOnly(text: string)
    ensures DecodeWelcome(map["msg" := JString(text)]) == Success(WelcomeResponse(Status(0, text)))
    ensures TryToError(Status(0, text)).Success?
  {
  }
}
