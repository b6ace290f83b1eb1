/** Timestamps as the request body writes them: RFC 3339 (section 5.6) in UTC
    with exactly three fractional digits and a `Z` suffix, for example
    `2020-10-30T07:00:00.000Z`. The instant is taken already broken down into
    calendar fields; converting a system clock reading into these fields is not
    part of this model. */
module Rfc3339 {
  import opened Wrappers
  import opened Decimal

  /** A UTC instant broken down into its calendar fields. */
  datatype DateTime = DateTime(
    year: nat, month: nat, day: nat,
    hour: nat, minute: nat, second: nat,
    nanos: nat)

  predicate IsLeapYear(y: nat) {
    y % 4 == 0 && (y % 100 != 0 || y % 400 == 0)
  }

  function DaysInMonth(y: nat, m: nat): (d: nat)
    requires 1 <= m <= 12
    ensures 28 <= d <= 31
  {
    if m == 2 then (if IsLeapYear(y) then 29 else 28)
    else if m == 4 || m == 6 || m == 9 || m == 11 then 30
    else 31
  }

  /** The fields name a real instant of the proleptic Gregorian calendar. */
  predicate ValidDateTime(t: DateTime) {
    && 1 <= t.month <= 12
    && 1 <= t.day <= DaysInMonth(t.year, t.month)
    && t.hour < 24 && t.minute < 60 && t.second < 60
    && t.nanos < 1_000_000_000
  }

  /** The instants the formatter accepts: from the Unix epoch to the end of
      year 9999 (earlier instants make it panic, later ones make it fail). */
  predicate Formattable(t: DateTime) {
    ValidDateTime(t) && 1970 <= t.year <= 9999
  }

  const MILLIS_LENGTH: nat := 24

  /** The positions of the fixed punctuation in a formatted timestamp. */
  predicate HasMillisShape(s: string) {
    && |s| == MILLIS_LENGTH
    && s[4] == '-' && s[7] == '-' && s[10] == 'T'
    && s[13] == ':' && s[16] == ':' && s[19] == '.' && s[23] == 'Z'
  }

  /** The date fields joined as `YYYY-MM-DD`. */
  function DatePart(y: string, mo: string, d: string): (s: string) {
    y + "-" + mo + "-" + d
  }

  /** The time fields joined as `HH:MM:SS.mmm`. */
  function TimePart(h: string, mi: string, sec: string, ms: string): (s: string) {
    h + ":" + mi + ":" + sec + "." + ms
  }

  /** Seven digit fields joined by the punctuation of the millisecond
      shape. */
  function Assemble(y: string, mo: string, d: string, h: string, mi: string, sec: string, ms: string): (s: string) {
    DatePart(y, mo, d) + "T" + TimePart(h, mi, sec, ms) + "Z"
  }

  lemma DateSlices(y: string, mo: string, d: string)
    requires |y| == 4 && |mo| == 2 && |d| == 2
    ensures var s := DatePart(y, mo, d);
      |s| == 10 && s[4] == '-' && s[7] == '-' && s[0..4] == y && s[5..7] == mo && s[8..10] == d
  {
  }

  lemma TimeSlices(h: string, mi: string, sec: string, ms: string)
    requires |h| == 2 && |mi| == 2 && |sec| == 2 && |ms| == 3
    ensures var s := TimePart(h, mi, sec, ms);
      && |s| == 12 && s[2] == ':' && s[5] == ':' && s[8] == '.'
      && s[0..2] == h && s[3..5] == mi && s[6..8] == sec && s[9..12] == ms
  {
  }

  /** The fields of an assembled timestamp can be sliced out again. */
  lemma AssembleSlices(y: string, mo: string, d: string, h: string, mi: string, sec: string, ms: string)
    requires |y| == 4 && |mo| == 2 && |d| == 2 && |h| == 2 && |mi| == 2 && |sec| == 2 && |ms| == 3
    ensures var s := Assemble(y, mo, d, h, mi, sec, ms);
      && HasMillisShape(s)
      && s[0..4] == y && s[5..7] == mo && s[8..10] == d && s[11..13] == h
      && s[14..16] == mi && s[17..19] == sec && s[20..23] == ms
  {
    var date, time := DatePart(y, mo, d), TimePart(h, mi, sec, ms);
    DateSlices(y, mo, d);
    TimeSlices(h, mi, sec, ms);
    var s := Assemble(y, mo, d, h, mi, sec, ms);
    assert s[..10] == date && s[10] == 'T' && s[11..23] == time && s[23] == 'Z';
    assert s[0..4] == date[0..4] && s[5..7] == date[5..7] && s[8..10] == date[8..10];
    assert s[11..13] == time[0..2] && s[14..16] == time[3..5];
    assert s[17..19] == time[6..8] && s[20..23] == time[9..12];
  }

  /** A string of the millisecond shape is its slices reassembled. */
  lemma AssembleOfSlices(s: string)
    requires HasMillisShape(s)
    ensures Assemble(s[0..4], s[5..7], s[8..10], s[11..13], s[14..16], s[17..19], s[20..23]) == s
  {
    var date := DatePart(s[0..4], s[5..7], s[8..10]);
    var time := TimePart(s[11..13], s[14..16], s[17..19], s[20..23]);
    DateSlices(s[0..4], s[5..7], s[8..10]);
    TimeSlices(s[11..13], s[14..16], s[17..19], s[20..23]);
    assert date == s[..10];
    assert time == s[11..23];
    assert s == s[..10] + "T" + s[11..23] + "Z";
  }

  /** Writes `t` as `YYYY-MM-DDTHH:MM:SS.mmmZ`; the sub-millisecond part of
      the instant is truncated, not rounded. */
  function FormatMillis(t: DateTime): (s: string)
    requires Formattable(t)
    ensures HasMillisShape(s)
  {
    var y, mo, d := Padded(t.year, 4), Padded(t.month, 2), Padded(t.day, 2);
    var h, mi, sec := Padded(t.hour, 2), Padded(t.minute, 2), Padded(t.second, 2);
    var ms := Padded(t.nanos / 1_000_000, 3);
    AssembleSlices(y, mo, d, h, mi, sec, ms);
    Assemble(y, mo, d, h, mi, sec, ms)
  }

  /** The instant with its sub-millisecond part dropped. */
  function TruncateToMillis(t: DateTime): (u: DateTime) {
    t.(nanos := t.nanos / 1_000_000 * 1_000_000)
  }

  predicate DigitFields(s: string)
    requires |s| == MILLIS_LENGTH
  {
    && AllDigits(s[0..4]) && AllDigits(s[5..7]) && AllDigits(s[8..10])
    && AllDigits(s[11..13]) && AllDigits(s[14..16]) && AllDigits(s[17..19])
    && AllDigits(s[20..23])
  }

  /** Reads back exactly the shape FormatMillis writes: every field must have
      its full width and the instant must be one the formatter accepts. */
  function ParseMillis(s: string): (r: Option<DateTime>)
    ensures r.Some? ==> Formattable(r.value) && r.value.nanos % 1_000_000 == 0
  {
    if HasMillisShape(s) && DigitFields(s) then
      var t := DateTime(
        Value(s[0..4]), Value(s[5..7]), Value(s[8..10]),
        Value(s[11..13]), Value(s[14..16]), Value(s[17..19]),
        Value(s[20..23]) * 1_000_000);
      if Formattable(t) then Some(t) else None
    else None
  }

  /** The fields of a formatted timestamp, one slice each. */
  lemma FormatFields(t: DateTime)
    requires Formattable(t)
    ensures var s := FormatMillis(t);
      && s[0..4] == Padded(t.year, 4) && s[5..7] == Padded(t.month, 2)
      && s[8..10] == Padded(t.day, 2) && s[11..13] == Padded(t.hour, 2)
      && s[14..16] == Padded(t.minute, 2) && s[17..19] == Padded(t.second, 2)
      && s[20..23] == Padded(t.nanos / 1_000_000, 3)
  {
    AssembleSlices(Padded(t.year, 4), Padded(t.month, 2), Padded(t.day, 2),
      Padded(t.hour, 2), Padded(t.minute, 2), Padded(t.second, 2), Padded(t.nanos / 1_000_000, 3));
  }

  /** Formatting then parsing gives the instant back, truncated to
      milliseconds. */
  lemma FormatThenParse(t: DateTime)
    requires Formattable(t)
    ensures ParseMillis(FormatMillis(t)) == Some(TruncateToMillis(t))
  {
    var s := FormatMillis(t);
    FormatFields(t);
    assert DigitFields(s);
    var ms := t.nanos / 1_000_000;
    assert Value(s[20..23]) == ms;
    var u := DateTime(
      Value(s[0..4]), Value(s[5..7]), Value(s[8..10]),
      Value(s[11..13]), Value(s[14..16]), Value(s[17..19]),
      Value(s[20..23]) * 1_000_000);
    assert u == TruncateToMillis(t);
    assert Formattable(u);
  }

  /** Parsing then formatting gives the same text: the parser accepts only
      what the formatter writes. */
  lemma ParseThenFormat(s: string)
    requires ParseMillis(s).Some?
    ensures FormatMillis(ParseMillis(s).value) == s
  {
    var t := ParseMillis(s).value;
    assert DigitFields(s);
    assert t.year == Value(s[0..4]) && t.month == Value(s[5..7]) && t.day == Value(s[8..10]);
    assert t.hour == Value(s[11..13]) && t.minute == Value(s[14..16]) && t.second == Value(s[17..19]);
    assert t.nanos / 1_000_000 == Value(s[20..23]);
    PaddedValue(s[0..4]);
    PaddedValue(s[5..7]);
    PaddedValue(s[8..10]);
    PaddedValue(s[11..13]);
    PaddedValue(s[14..16]);
    PaddedValue(s[17..19]);
    PaddedValue(s[20..23]);
    AssembleOfSlices(s);
  }
}
