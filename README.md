# Telraam client core, modelled in Dafny

This project models the logic of `telraam-rs`, a typed client for the Telraam
traffic-camera REST API, that is not HTTP plumbing:

- **Status envelope** (`StatusEnvelope`, `status.dfy`). Every response body
  carries a `Status` with a code and a message. The check accepts exactly
  codes up to 299. It comes in a borrowing and a consuming form. On failure it
  yields `Error::Non200Response`, whose display text is
  `status_code:<code>:<message>`.
- **Responses** (`Responses`, `responses.dfy`). There are five response types.
  Each carries a status, and four of them also carry a payload. The payload accessors (`reports`, `snapshot`,
  `cameras`, `segments`) and their consuming `take_*` twins run the check
  first. The module also has the "yes"/"no" codec of a camera's calibration
  flag. Decoding the status from a JSON body covers the default code 0 and
  the `msg` alias of `message`.
- **Endpoints** (`Endpoints`, `endpoints.dfy`). The eight operations form one
  datatype. Functions give each one's path, method, request type, response
  type, payload, query parameters and path parameter. This module also has
  `TrafficLevel` and its wire names, and the JSON object a `TrafficRequest`
  is sent as.
- **Timestamps** (`Rfc3339`, `rfc3339.dfy`). This is the request body's
  timestamp format: RFC 3339 (section 5.6) with three fractional digits and a
  `Z`. It works on a UTC instant already broken down into calendar fields. A
  strict parser of the same shape is its partner.
- **Client** (`Client`, `client.dfy`). `New` fills a header map step by step.
  `Send` builds the URL in place (`base/v1/PATH`, then `/param`) and hands the
  request to a transport, which is a parameter. The transport's answer comes
  back unchanged, because `send` never looks at the status. The request
  names the response type the body is decoded into. The URL is proved to
  determine the path and path parameter it was built from, as long as the
  path parameter holds no `/`.

`Decimal` (`decimal.dfy`) writes and reads digit strings for the error text
and the timestamps. `Wrappers` holds `Option`/`Result`, and `Json` holds a
small JSON value type. `Responses.StatusOf` models the `Response::status`
trait method: a plain field read with no check.

## Model

| member | source | states |
|---|---|---|
| StatusEnvelope.TryToError | src/response.rs:31-37 | succeeds exactly when `status_code <= 299`; on failure the error is `Non200Response` carrying that same status |
| StatusEnvelope.TryIntoError | src/response.rs:39-45 | the consuming check: same threshold, and the status moves into the error unchanged |
| StatusEnvelope.CheckFormsAgree | src/response.rs:31-45 | the borrowing and the consuming check give the same result on every status |
| StatusEnvelope.ErrorMessage | src/error.rs:9-12 | the display text is `status_code:`, then exactly the minimal decimal of the code, then `:` and the message |
| StatusEnvelope.ErrorMessageRoundTrip | src/error.rs:11 | the display text determines the status: code and message read back unchanged, even when the message contains colons |
| Decimal.Minimal | src/error.rs:11 | the code is written as a non-empty digit string that denotes it, with no leading zero: a string starting with `0` is `"0"` itself |
| Decimal.Padded | src/endpoint.rs:98-104 | a number written at a fixed width is exactly that many digits and denotes the number |
| Decimal.PaddedValue | src/endpoint.rs:98-104 | reading a digit string and writing it back at the same width gives the string again |
| Rfc3339.FormatMillis | src/endpoint.rs:98-104 | a timestamp is 24 characters with `-`, `-`, `T`, `:`, `:`, `.`, `Z` at their fixed positions |
| Rfc3339.ParseMillis | src/endpoint.rs:98-104 | the partner reader accepts only instants from 1970 to 9999 with whole milliseconds |
| Rfc3339.FormatThenParse | src/endpoint.rs:98-104 | formatting then reading gives the instant back, truncated to milliseconds |
| Rfc3339.ParseThenFormat | src/endpoint.rs:98-104 | reading then formatting gives the same text back |
| Responses.Reports | src/response.rs:78-81 | returns exactly the stored reports when the code is at most 299, and otherwise `Non200Response` with the response's status |
| Responses.TakeReports | src/response.rs:84-87 | the consuming form, with the same outcome and payload |
| Responses.Snapshot | src/response.rs:157-160 | returns exactly the stored GeoJSON when the check passes, and otherwise the error |
| Responses.TakeSnapshot | src/response.rs:163-166 | the consuming form, with the same outcome and payload |
| Responses.Cameras | src/response.rs:268-271 | returns exactly the stored cameras when the check passes, and otherwise the error |
| Responses.TakeCameras | src/response.rs:274-277 | the consuming form, with the same outcome and payload |
| Responses.Segments | src/response.rs:297-300 | returns exactly the stored segment GeoJSON when the check passes, and otherwise the error |
| Responses.TakeSegments | src/response.rs:303-306 | the consuming form, with the same outcome and payload |
| Responses.TakeAgreesWithBorrow | src/response.rs:76-88 | each `take_*` accessor equals its borrowing twin on every response |
| Responses.FromYesNo | src/response.rs:224-250 | decodes only `"yes"` (true) and `"no"` (false); any other string is an unknown variant naming it with expected `["yes","no"]`; a non-string is a type error with the visitor's expectation text |
| Responses.ToYesNo | src/response.rs:252-258 | encodes to one of the strings `"yes"`/`"no"` |
| Responses.YesNoEncodeDecode | src/response.rs:224-258 | encoding then decoding is the identity on booleans |
| Responses.YesNoDecodeEncode | src/response.rs:241-245 | decoding succeeds exactly on `"yes"` and `"no"`, and decoding then encoding gives the string back |
| Responses.StatusOf | src/response.rs:13-17 | the status every response exposes without a check is the one its payload accessor checks: the accessor fails exactly when this status fails the check, and then with `Non200Response` of this status |
| Responses.DecodedWelcomeStatus | src/response.rs:48-58 | the status a decoded welcome response exposes is the status decoded from its body |
| Responses.DecodeStatusCode | src/response.rs:22-24 | an absent `status_code` is 0; a present integer from 0 to the `usize` maximum decodes to itself; a negative integer is an invalid value; a non-number, or a number too large to read as an integer, is a type error |
| Responses.DecodeMessage | src/response.rs:25-27 | the message comes from exactly one of `message` or `msg`, and a lone string under either name is accepted; both names present is a duplicate-field error; neither is a missing-field error |
| Responses.DecodeOkBody | src/response.rs:19-28 | `{"status_code": 200, "message": text}` decodes to code 200 and that text, which passes the check |
| Responses.DecodeStatus | src/response.rs:19-28 | the status decodes exactly when both its fields do, from those fields |
| Responses.DecodeWelcome | src/response.rs:48-53 | the welcome response is its status, decoded from the same body |
| Responses.WelcomeFromMsgOnly | src/response.rs:322-334 | a body holding only `msg` decodes to code 0 and that text, which passes the check |
| Endpoints.LevelName | src/endpoint.rs:107-117 | a level is written as `"segments"` or `"instance"`, and the default level is the one written `"segments"` |
| Endpoints.ParseLevel | src/endpoint.rs:107-117 | the partner reader accepts exactly those two names |
| Endpoints.LevelNameRoundTrip | src/endpoint.rs:107-117 | the names read back as their levels, and each accepted name reads back to itself |
| Endpoints.SerializeTrafficRequest | src/endpoint.rs:79-104 | the body object has five fields in declaration order; level by its wire name, `format` and `id` verbatim, timestamps in the millisecond shape |
| Endpoints.SerializedTimesReadBack | src/endpoint.rs:89-104 | the serialized timestamps read back as the request's instants truncated to milliseconds |
| Endpoints.Path | src/endpoint.rs:51-207 | only Welcome has the empty PATH; every other PATH is non-empty with no `/` at either end |
| Endpoints.SharedPaths | src/endpoint.rs:51-207 | two endpoints share a path exactly when they are the same operation, or are `AllAvailableCameras` and `CameraByMacId` |
| Endpoints.Method | src/endpoint.rs:50-216 | an endpoint is POST exactly when it is `Traffic` |
| Endpoints.ResponseOf | src/endpoint.rs:54-210 | the response type is the traffic reports exactly for the POST endpoint, and every lookup by identifier answers with cameras or segments |
| Endpoints.RequestOf | src/endpoint.rs:50-216 | the request type is `TrafficRequest` exactly for the POST endpoint, and unit for all others |
| Endpoints.Payload | src/endpoint.rs:29-76 | a payload exists exactly for the POST endpoint, and it is the request that `Traffic` carries |
| Endpoints.Params | src/endpoint.rs:34-37 | no endpoint has query parameters |
| Endpoints.PathParam | src/endpoint.rs:39-216 | a path parameter exists exactly for the three lookups by identifier, which are GET endpoints with no payload |
| Endpoints.PathParamIsCarriedId | src/endpoint.rs:160-215 | the path parameter is the carried identifier, unchanged |
| Endpoints.NoPayloadWithPathParam | src/endpoint.rs:50-216 | no endpoint has both a payload and a path parameter |
| Endpoints.ResponseWiring | src/endpoint.rs:54-210 | Welcome, Traffic and LiveTrafficSnapshot each have their own response type; the three camera endpoints share one, and so do the two segment endpoints |
| Client.HeaderMap.constructor | src/client.rs:26 | a new header map is empty |
| Client.HeaderMap.Insert | src/client.rs:28-32 | an insert sets that one name and returns the value it replaced |
| Client.TelraamClient.WithDefaultHeaders | src/client.rs:34-39 | the client keeps the header map it was built with |
| Client.TelraamClient.New | src/client.rs:25-40 | fails exactly when the token is not a valid header value; otherwise the client's default headers are `DefaultHeaders(token)` |
| Client.DefaultHeaders | src/client.rs:26-32 | exactly three headers: `Accept` and `Content-Type` set to `application/json`, and `X-Api-Key` set to the token; only the key is sensitive |
| Client.Url | src/client.rs:52-63 | every URL starts with `https://telraam-api.net/v1/` and is at least as long as that root and the PATH together; it ends with `/` and the path parameter when there is one |
| Client.Body | src/client.rs:67-72 | a body is sent exactly for the POST endpoint, and it is the traffic query serialized field by field (`SerializeTrafficRequest` of the carried request); GET requests have no body |
| Client.RequestFor | src/client.rs:65-74 | the request carries the endpoint's method, its built URL, its (empty) query parameters, the client's headers and its serialized body, and names the endpoint's response type; it has a body exactly when it is a POST, and its URL lies under the API root |
| Client.TelraamClient.Send | src/client.rs:51-75 | the transport gets the endpoint's method, URL, parameters, default headers, body and response type, and its answer is returned unchanged, whatever status it carries; with a transport that decodes into the requested type, a successful answer is of the endpoint's response type |
| Client.UrlStartsWithRootAndPath | src/client.rs:52-63 | every URL is `https://telraam-api.net/v1/` then PATH, then `/param` if there is a parameter, and nothing else |
| Client.WelcomeUrlIsRoot | src/client.rs:52-57 | Welcome's URL is exactly `https://telraam-api.net/v1/` |
| Client.CameraUrlsDifferByMac | src/client.rs:60-63 | the two camera listings share their path and differ only by `/<mac_id>` |
| Client.UrlRoundTrip | src/client.rs:52-63 | when the path parameter holds no `/`, the URL determines the path and the parameter |
| Client.SlashInMacAliasesSegmentLookup | src/client.rs:60-63 | identifiers are appended without escaping, so the MAC id `segment/348917` gives the URL of the cameras on segment 348917 |

## Left out

- HTTP transport. Building the `reqwest` client (user agent, a failing
  `build()`), encoding the query string, executing the request and decoding
  the body into the response type are not modelled. `Send` takes them as one
  `transport` parameter. `New` assumes the client builder succeeds.
- Client.TelraamClient.Send: Rust's type system makes `send` return the
  endpoint's own response type. Here the response is one of the five kinds,
  and `Send` promises the endpoint's kind only for a transport that decodes
  into the kind the request names (`Client.Honours`).
- URL parsing. `Outgoing.url` is the string handed to the HTTP library,
  which then parses it: a `?` or `#` inside an identifier would start a query
  or a fragment, and `.` or `..` segments would be removed. That parsing is
  not modelled, so the URL properties (`UrlRoundTrip`,
  `SlashInMacAliasesSegmentLookup`) are about the string.
- Header-value validity. It is decided by the `http` crate, which is not part
  of this model, so `New` takes it as a predicate parameter. Header names are
  stored in lower case because HTTP header names are case-insensitive.
- JSON text. The request body is modelled as the ordered field list
  `serde_json` writes, not as escaped text. JSON numbers are integers only.
- Response decoding. Only the status envelope and `WelcomeResponse` are
  decoded from a body. Decoding `Report`, `Camera` (apart from the yes/no
  flag) and GeoJSON is not modelled, and neither are the `report` rename and
  the `camera` alias. GeoJSON documents are opaque `Json` values.
- Responses.DecodeStatus: when a body has several faults, serde reports the
  first type, value or duplicate fault in the order the keys appear in the
  body, and a missing field only after all keys are read. A `map` keeps no order, so the model checks the
  code before the message.
- Responses.DecodeStatusCode: `usize` is taken as 64 bits. A JSON number
  outside the signed and unsigned 64-bit ranges is treated as one the reader
  keeps as a float. JSON fractions are not modelled. The type-error texts
  `"usize"` and `"a string"` stand for serde's messages.
- Timestamps. Converting a system time into calendar fields (for example
  `2020-10-30T07:00:00.000Z` as Unix time 1604041200) is not modelled, and
  neither is the weak RFC 3339 parser the command line uses. The formatter
  requires instants from 1970 to 9999 because it panics outside that range.
- `Report`'s floating-point fields (uptime, counts, speed histograms, `v85`)
  are not modelled.
- The command-line front end (`src/main.rs`, the `clap` derives) and the test
  fixtures read from disk are not modelled.
