/**
 * Decimal text for 32-bit `int`, shared by the Game of Life field reader
 * (`input >> width >> height`), its writer (`output << width`) and the chord
 * script's BPM line (`std::stoi`). Both readers skip leading white space
 * (the `isspace` set), accept one optional sign and then a run of decimal
 * digits, and stop at the first character that is not a digit; both fail when
 * there is no digit or the value does not fit in a 32-bit `int`.
 */
module IntText {
  import opened Outcomes

  const INT_MIN: int := -0x8000_0000
  const INT_MAX: int := 0x7fff_ffff

  predicate IsSpace(c: char) {
    c == ' ' || c == '\t' || c == '\n' || c == '\U{0B}' || c == '\U{0C}' || c == '\r'
  }

  predicate IsDigit(c: char) {
    '0' <= c <= '9'
  }

  function DigitValue(c: char): (d: nat)
    requires IsDigit(c)
    ensures d < 10
  {
    (c - '0') as nat
  }

  function DigitChar(d: nat): (c: char)
    requires d < 10
    ensures IsDigit(c) && DigitValue(c) == d
  {
    ('0' as int + d) as char
  }

  /** The input after its leading white space. */
  function SkipSpaces(s: string): (t: string)
    ensures |t| <= |s| && t == s[|s| - |t|..]
    ensures t == [] || !IsSpace(t[0])
  {
    if s != [] && IsSpace(s[0]) then SkipSpaces(s[1..]) else s
  }

  /** Length of the run of digits that starts the input. */
  function DigitRun(s: string): (k: nat)
    ensures k <= |s|
    ensures forall i :: 0 <= i < k ==> IsDigit(s[i])
    ensures k < |s| ==> !IsDigit(s[k])
  {
    if s != [] && IsDigit(s[0]) then 1 + DigitRun(s[1..]) else 0
  }

  /** The value of a string of decimal digits, most significant first. */
  function DigitsValue(d: string): nat
    requires forall i :: 0 <= i < |d| ==> IsDigit(d[i])
  {
    if d == [] then 0 else 10 * DigitsValue(d[..|d| - 1]) + DigitValue(d[|d| - 1])
  }

  /** The value of the run of digits that starts `u`, and the text after it. */
  function ParseMagnitude(u: string): (r: Option<(nat, string)>)
    ensures r.Some? ==> |r.value.1| < |u|
    ensures r.Some? ==> r.value.1 == [] || !IsDigit(r.value.1[0])
  {
    var k := DigitRun(u);
    if k == 0 then None else Some((DigitsValue(u[..k]), u[k..]))
  }

  /** A sign, if any, then digits; the value must fit in `int`. */
  function ParseSigned(t: string): (r: Option<(int, string)>)
    ensures r.Some? ==> INT_MIN <= r.value.0 <= INT_MAX
    ensures r.Some? ==> |r.value.1| < |t|
    ensures r.Some? ==> r.value.1 == [] || !IsDigit(r.value.1[0])
  {
    var negative := t != [] && t[0] == '-';
    var u := if t != [] && (t[0] == '-' || t[0] == '+') then t[1..] else t;
    match ParseMagnitude(u)
    case None => None
    case Some((magnitude, rest)) =>
      var v: int := if negative then 0 - magnitude else magnitude;
      if v < INT_MIN || INT_MAX < v then None else Some((v, rest))
  }

  /**
   * What `input >> n` and `std::stoi` read from the start of `s`: the value and
   * the text after the last digit, or None when extraction fails.
   */
  function ParseLeadingInt(s: string): (r: Option<(int, string)>)
    ensures r.Some? ==> INT_MIN <= r.value.0 <= INT_MAX
    ensures r.Some? ==> |r.value.1| < |s|
    ensures r.Some? ==> r.value.1 == [] || !IsDigit(r.value.1[0])
  {
    ParseSigned(SkipSpaces(s))
  }

  /** The decimal digits of `n`, no leading zero. */
  function NatToString(n: nat): (s: string)
    ensures s != []
    ensures forall i :: 0 <= i < |s| ==> IsDigit(s[i])
    decreases n
  {
    if n < 10 then [DigitChar(n)] else NatToString(n / 10) + [DigitChar(n % 10)]
  }

  /** What `output << n` writes for an `int`. */
  function IntToString(n: int): (s: string)
    ensures s != [] && !IsSpace(s[0]) && s[0] != '+'
  {
    if n < 0 then "-" + NatToString(-n) else NatToString(n)
  }

  lemma {:induction false} NatToStringValue(n: nat)
    ensures DigitsValue(NatToString(n)) == n
    decreases n
  {
    if n >= 10 {
      var s := NatToString(n);
      assert s[..|s| - 1] == NatToString(n / 10);
      NatToStringValue(n / 10);
    }
  }

  lemma {:induction false} DigitRunOfDigits(d: string, rest: string)
    requires forall i :: 0 <= i < |d| ==> IsDigit(d[i])
    requires rest == [] || !IsDigit(rest[0])
    ensures DigitRun(d + rest) == |d|
    decreases |d|
  {
    if d != [] {
      assert (d + rest)[1..] == d[1..] + rest;
      DigitRunOfDigits(d[1..], rest);
    } else {
      assert d + rest == rest;
    }
  }

  lemma MagnitudeRoundTrip(m: nat, rest: string)
    requires rest == [] || !IsDigit(rest[0])
    ensures ParseMagnitude(NatToString(m) + rest) == Some((m, rest))
  {
    var d := NatToString(m);
    var u := d + rest;
    DigitRunOfDigits(d, rest);
    assert u[..|d|] == d;
    assert u[|d|..] == rest;
    NatToStringValue(m);
  }

  lemma NegativeRoundTrip(m: nat, rest: string)
    requires 0 < m <= -INT_MIN
    requires rest == [] || !IsDigit(rest[0])
    ensures ParseSigned("-" + NatToString(m) + rest) == Some((-(m as int), rest))
  {
    var t := "-" + NatToString(m) + rest;
    assert t[1..] == NatToString(m) + rest;
    MagnitudeRoundTrip(m, rest);
  }

  lemma NonNegativeRoundTrip(m: nat, rest: string)
    requires m <= INT_MAX
    requires rest == [] || !IsDigit(rest[0])
    ensures ParseSigned(NatToString(m) + rest) == Some((m, rest))
  {
    var t := NatToString(m) + rest;
    assert t[0] == NatToString(m)[0];
    MagnitudeRoundTrip(m, rest);
  }

  /** Reading back what `output << n` wrote yields `n` and stops right after it. */
  lemma IntToStringRoundTrip(n: int, rest: string)
    requires INT_MIN <= n <= INT_MAX
    requires rest == [] || !IsDigit(rest[0])
    ensures ParseLeadingInt(IntToString(n) + rest) == Some((n, rest))
  {
    var s := IntToString(n) + rest;
    assert s[0] == IntToString(n)[0];
    assert SkipSpaces(s) == s;
    if n < 0 {
      NegativeRoundTrip(-n, rest);
    } else {
      NonNegativeRoundTrip(n, rest);
    }
  }
}
