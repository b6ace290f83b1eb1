/** The status envelope carried by every response body, the check that gates
    every payload behind it, and the error that check produces. */
module StatusEnvelope {
  import opened Wrappers
  import opened Decimal

  /** The largest status code that still counts as success. */
  const SUCCESS_MAX: nat := 299

  /** The remote service's verdict on a request: a code (0 when the body has
      none) and a message. */
  datatype Status = Status(statusCode: nat, message: string)

  /** The library's error: the remote service answered with a non-success
      status. */
  datatype Error = Non200Response(status: Status)

  /** The borrowing check: inspects the status and, on failure, returns a copy
      of it inside the error. */
  function TryToError(s: Status): (r: Result<(), Error>)
    ensures r.Success? <==> s.statusCode <= SUCCESS_MAX
    ensures r.Failure? ==> r.error == Non200Response(s)
  {
    if s.statusCode <= SUCCESS_MAX then Success(()) else Failure(Non200Response(s))
  }

  /** The consuming check: the status itself moves into the error. */
  function TryIntoError(s: Status): (r: Result<(), Error>)
    ensures r.Success? <==> s.statusCode <= SUCCESS_MAX
    ensures r.Failure? ==> r.error == Non200Response(s)
  {
    if s.statusCode <= SUCCESS_MAX then Success(()) else Failure(Non200Response(s))
  }

  /** Both forms of the check reach the same verdict and carry the same status. */
  lemma CheckFormsAgree(s: Status)
    ensures TryToError(s) == TryIntoError(s)
  {
  }

  const ERROR_PREFIX: string := "status_code:"

  /** The error's display text: `status_code:<code>:<message>`. */
  function ErrorMessage(e: Error): (m: string)
    ensures |m| > |ERROR_PREFIX| + |e.status.message| && m[..|ERROR_PREFIX|] == ERROR_PREFIX
    ensures m[|m| - |e.status.message|..] == e.status.message
    ensures m[|ERROR_PREFIX|..|m| - |e.status.message| - 1] == Minimal(e.status.statusCode)
    ensures m[|m| - |e.status.message| - 1] == ':'
  {
    ERROR_PREFIX + Minimal(e.status.statusCode) + ":" + e.status.message
  }

  /** The index of the first `c` in `s`, if there is one. */
  function IndexOf(s: string, c: char): (r: Option<nat>)
    ensures r.Some? ==> r.value < |s| && s[r.value] == c && c !in s[..r.value]
    ensures r.None? ==> c !in s
  {
    if s == [] then None
    else if s[0] == c then Some(0)
    else
      match IndexOf(s[1..], c)
      case None => None
      case Some(k) => assert s[..k + 1] == [s[0]] + s[1..][..k]; Some(k + 1)
  }

  /** Reads a status back out of an error's display text: the code ends at the
      first colon after the prefix, and the message is everything after it. */
  function ParseErrorMessage(m: string): (r: Option<Status>) {
    if |m| >= |ERROR_PREFIX| && m[..|ERROR_PREFIX|] == ERROR_PREFIX then
      var rest := m[|ERROR_PREFIX|..];
      match IndexOf(rest, ':')
      case None => None
      case Some(k) =>
        if 0 < k && AllDigits(rest[..k]) then Some(Status(Value(rest[..k]), rest[k + 1..]))
        else None
    else None
  }

  lemma {:induction false} IndexOfAfterDigits(d: string, rest: string)
    requires AllDigits(d)
    ensures IndexOf(d + ":" + rest, ':') == Some(|d|)
  {
    if d != [] {
      assert (d + ":" + rest)[1..] == d[1..] + ":" + rest;
      IndexOfAfterDigits(d[1..], rest);
    }
  }

  /** The display text of an error determines its status: code and message
      come back unchanged, even when the message itself contains colons. */
  lemma ErrorMessageRoundTrip(e: Error)
    ensures ParseErrorMessage(ErrorMessage(e)) == Some(e.status)
  {
    var code := Minimal(e.status.statusCode);
    var m := ErrorMessage(e);
    var rest := code + ":" + e.status.message;
    assert m == ERROR_PREFIX + rest;
    assert |m| >= |ERROR_PREFIX| && m[..|ERROR_PREFIX|] == ERROR_PREFIX;
    assert m[|ERROR_PREFIX|..] == rest;
    IndexOfAfterDigits(code, e.status.message);
    assert IndexOf(rest, ':') == Some(|code|);
    assert rest[..|code|] == code;
    assert 0 < |code| && AllDigits(code) && Value(code) == e.status.statusCode;
    assert rest[|code| + 1..] == e.status.message;
  }
}
