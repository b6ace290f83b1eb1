/** Decimal digit strings: how integers are written in error messages and in
    timestamps, and how such digit strings are read back. */
module Decimal {

  predicate IsDigit(c: char) {
    '0' <= c <= '9'
  }

  predicate AllDigits(s: string) {
    forall i :: 0 <= i < |s| ==> IsDigit(s[i])
  }

  function DigitValue(c: char): (d: nat)
    requires IsDigit(c)
    ensures d < 10
  {
    c as int - '0' as int
  }

  function DigitChar(d: nat): (c: char)
    requires d < 10
    ensures IsDigit(c) && DigitValue(c) == d
  {
    ('0' as int + d) as char
  }

  function Pow10(n: nat): (p: nat)
    ensures p >= 1
  {
    if n == 0 then 1 else 10 * Pow10(n - 1)
  }

  /** The number a digit string denotes, most significant digit first. */
  function Value(s: string): (v: nat)
    requires AllDigits(s)
    ensures v < Pow10(|s|)
  {
    if s == [] then 0 else Value(s[..|s| - 1]) * 10 + DigitValue(s[|s| - 1])
  }

  /** `n` written with exactly `width` digits, padded with zeros on the left. */
  function Padded(n: nat, width: nat): (s: string)
    requires n < Pow10(width)
    ensures |s| == width && AllDigits(s) && Value(s) == n
  {
    if width == 0 then []
    else
      var s := Padded(n / 10, width - 1) + [DigitChar(n % 10)];
      assert s[..|s| - 1] == Padded(n / 10, width - 1);
      s
  }

  /** `n` written in decimal with no leading zero, as integers are displayed. */
  function Minimal(n: nat): (s: string)
    ensures 0 < |s| && AllDigits(s) && Value(s) == n
    ensures s[0] == '0' ==> s == "0" && n == 0
  {
    if n < 10 then [DigitChar(n)]
    else
      var s := Minimal(n / 10) + [DigitChar(n % 10)];
      assert s[..|s| - 1] == Minimal(n / 10);
      assert s[0] == Minimal(n / 10)[0];
      s
  }

  lemma DropLastDigit(a: nat, d: nat)
    requires d < 10
    ensures (a * 10 + d) / 10 == a && (a * 10 + d) % 10 == d
  {
  }

  lemma PaddedStep(n: nat, width: nat)
    requires 0 < width && n < Pow10(width)
    ensures Padded(n, width) == Padded(n / 10, width - 1) + [DigitChar(n % 10)]
  {
  }

  lemma InitLast<T>(s: seq<T>)
    requires s != []
    ensures s[..|s| - 1] + [s[|s| - 1]] == s
  {
  }

  /** Reading a digit string and writing the number back at the same width
      gives the string again: zero-padding loses nothing. */
  lemma {:induction false} PaddedValue(s: string)
    requires AllDigits(s)
    ensures Padded(Value(s), |s|) == s
  {
    if s != [] {
      var init, last := s[..|s| - 1], s[|s| - 1];
      var v := Value(s);
      assert v == Value(init) * 10 + DigitValue(last);
      DropLastDigit(Value(init), DigitValue(last));
      assert v / 10 == Value(init) && v % 10 == DigitValue(last);
      PaddedStep(v, |s|);
      PaddedValue(init);
      assert Padded(v / 10, |s| - 1) == init;
      assert DigitChar(v % 10) == last;
      InitLast(s);
    }
  }
}
