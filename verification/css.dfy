/** Pixel lengths as CSS strings: what `getComputedStyle` reports for an
    integer width (`"300px"`), what `parseInt` reads back from it, and which
    strings the `style.width` property accepts as a pixel length. */
module Css {
  import opened Results

  predicate IsDigit(c: char) {
    '0' <= c <= '9'
  }

  function DigitChar(d: nat): (c: char)
    requires d < 10
    ensures IsDigit(c) && c as int - '0' as int == d
  {
    ('0' as int + d) as char
  }

  /** The decimal numeral of `n`, without leading zeros. */
  function Decimal(n: nat): (r: string)
    ensures |r| >= 1 && forall i :: 0 <= i < |r| ==> IsDigit(r[i])
    decreases n
  {
    if n < 10 then [DigitChar(n)] else Decimal(n / 10) + [DigitChar(n % 10)]
  }

  /** The value of a string of decimal digits. */
  function DigitsValue(s: string): nat
    requires forall i :: 0 <= i < |s| ==> IsDigit(s[i])
    decreases |s|
  {
    if s == [] then 0
    else
      var last := s[|s| - 1];
      assert IsDigit(last);
      DigitsValue(s[..|s| - 1]) * 10 + (last as int - '0' as int)
  }

  /** The length of the run of digits `s` starts with. */
  function DigitRun(s: string): (k: nat)
    ensures k <= |s|
    ensures forall i :: 0 <= i < k ==> IsDigit(s[i])
    ensures k < |s| ==> !IsDigit(s[k])
    decreases |s|
  {
    if s != [] && IsDigit(s[0]) then 1 + DigitRun(s[1..]) else 0
  }

  /** `parseInt` with no radix, on a string with no leading blanks, sign or
      `0x` prefix (a computed length has none): the value of its leading
      digits, `NaN` (None) when there are none. */
  function ParseInt(s: string): (r: Option<nat>)
    ensures r.None? <==> (s == [] || !IsDigit(s[0]))
    ensures r.Some? ==> r.value == DigitsValue(s[..DigitRun(s)])
  {
    var k := DigitRun(s);
    if k == 0 then None else Some(DigitsValue(s[..k]))
  }

  /** The computed-style form of an integer length. */
  function PxLength(n: nat): string {
    Decimal(n) + "px"
  }

  /** An integer pixel length in its plain form: digits followed by exactly
      `px`. Other forms the `style.width` setter accepts (an upper-case unit,
      a fraction, a sign, an exponent) are outside this model and give None
      here; a numeral followed by `pxpx` is invalid in every form. */
  function ParsePxLength(s: string): Option<nat> {
    var k := DigitRun(s);
    if k > 0 && s[k..] == "px" then Some(DigitsValue(s[..k])) else None
  }

  /** Reading back a numeral gives the number it was written from. */
  lemma {:induction false} DecimalRoundTrip(n: nat)
    ensures DigitsValue(Decimal(n)) == n
    decreases n
  {
    if n >= 10 {
      var d := Decimal(n);
      DecimalRoundTrip(n / 10);
      assert d[..|d| - 1] == Decimal(n / 10);
    }
  }

  /** The digits of a numeral followed by `rest` are exactly the numeral
      when `rest` does not start with a digit. */
  lemma DigitRunOfNumeral(n: nat, rest: string)
    requires rest != [] && !IsDigit(rest[0])
    ensures DigitRun(Decimal(n) + rest) == |Decimal(n)|
    ensures (Decimal(n) + rest)[..|Decimal(n)|] == Decimal(n)
    ensures (Decimal(n) + rest)[|Decimal(n)|..] == rest
  {
    var s := Decimal(n) + rest;
    var d := Decimal(n);
    assert s[|d|] == rest[0];
    assert forall i :: 0 <= i < |d| ==> s[i] == d[i];
  }

  /** `parseInt` of a computed width gives back the integer width. */
  lemma ParseIntOfPxLength(n: nat)
    ensures ParseInt(PxLength(n)) == Some(n)
  {
    DigitRunOfNumeral(n, "px");
    DecimalRoundTrip(n);
  }

  /** A computed width is itself an acceptable style length, of the same
      size. */
  lemma PxLengthRoundTrip(n: nat)
    ensures ParsePxLength(PxLength(n)) == Some(n)
  {
    DigitRunOfNumeral(n, "px");
    DecimalRoundTrip(n);
  }

  /** A numeral with the unit written twice is not a length. */
  lemma DoubledUnitRejected(n: nat)
    ensures ParsePxLength(PxLength(n) + "px") == None
  {
    var s := PxLength(n) + "px";
    assert s == Decimal(n) + "pxpx";
    DigitRunOfNumeral(n, "pxpx");
    assert |s[|Decimal(n)|..]| == 4;
  }
}
