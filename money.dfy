/**
 * Money amounts. The schemas store DECIMAL(10,2); the model holds them as
 * integer cents. `CentsText` is what `amount.toString()` prints for such an
 * amount held as a JavaScript number: the shortest decimal, so no trailing
 * zeros in the fraction and no fraction at all for whole amounts.
 */
module Money {
  import opened Wrappers
  import opened Strings

  function CentsText(cents: int): (s: string)
    ensures |s| >= 1
    ensures (s[0] == '-') <==> cents < 0
  {
    if cents < 0 then "-" + UnsignedText(-cents) else UnsignedText(cents)
  }

  /** The fraction part of `CentsText`: empty, one digit or two, never ending in 0. */
  function FractionText(frac: nat): (s: string)
    requires frac < 100
  {
    if frac == 0 then ""
    else if frac % 10 == 0 then "." + [DigitChar(frac / 10)]
    else "." + [DigitChar(frac / 10), DigitChar(frac % 10)]
  }

  function UnsignedText(a: nat): (s: string)
    ensures |s| >= 1 && IsDigit(s[0])
  {
    NatToString(a / 100) + FractionText(a % 100)
  }

  /** The length of the run of digits `s` starts with. */
  function DigitRun(s: string): (k: nat)
    ensures k <= |s| && AllDigits(s[..k])
    ensures k < |s| ==> !IsDigit(s[k])
  {
    if s == [] || !IsDigit(s[0]) then 0
    else
      var k := 1 + DigitRun(s[1..]);
      assert s[..k] == [s[0]] + s[1..][..k - 1];
      k
  }

  lemma {:induction false} DigitRunOf(d: string, rest: string)
    requires AllDigits(d)
    requires rest == [] || !IsDigit(rest[0])
    ensures DigitRun(d + rest) == |d|
  {
    if d != [] {
      assert (d + rest)[1..] == d[1..] + rest;
      DigitRunOf(d[1..], rest);
    } else {
      assert d + rest == rest;
    }
  }

  /** The cents after the point: "" is none, one digit is tenths, two digits are cents. */
  function ParseFraction(rest: string): Option<nat> {
    if rest == [] then Some(0)
    else if |rest| == 2 && rest[0] == '.' && IsDigit(rest[1]) then Some(10 * DigitValue(rest[1]))
    else if |rest| == 3 && rest[0] == '.' && IsDigit(rest[1]) && IsDigit(rest[2]) then
      Some(10 * DigitValue(rest[1]) + DigitValue(rest[2]))
    else None
  }

  /** Reads an unsigned rendering back as cents. */
  function ParseUnsigned(t: string): Option<nat> {
    var k := DigitRun(t);
    if k == 0 then None
    else match ParseFraction(t[k..])
      case None => None
      case Some(f) => Some(ParseNat(t[..k]) * 100 + f)
  }

  /** Reads a `CentsText` rendering back as cents; anything else is None. */
  function ParseCentsText(s: string): Option<int> {
    if |s| > 0 && s[0] == '-' then
      match ParseUnsigned(s[1..])
      case None => None
      case Some(v) => Some(-(v as int))
    else
      match ParseUnsigned(s)
      case None => None
      case Some(v) => Some(v)
  }

  lemma FractionRoundTrip(frac: nat)
    requires frac < 100
    ensures ParseFraction(FractionText(frac)) == Some(frac)
    ensures FractionText(frac) == [] || !IsDigit(FractionText(frac)[0])
  {
  }

  lemma UnsignedRoundTrip(a: nat)
    ensures ParseUnsigned(UnsignedText(a)) == Some(a)
  {
    var whole := NatToString(a / 100);
    var rest := FractionText(a % 100);
    var t := whole + rest;
    FractionRoundTrip(a % 100);
    DigitRunOf(whole, rest);
    assert t[..|whole|] == whole && t[|whole|..] == rest;
    ParseNatToString(a / 100);
  }

  /** The text names the amount exactly. */
  lemma CentsTextRoundTrip(cents: int)
    ensures ParseCentsText(CentsText(cents)) == Some(cents)
  {
    var s := CentsText(cents);
    if cents < 0 {
      NegativeRoundTrip(-cents, s);
    } else {
      NonNegativeRoundTrip(cents, s);
    }
  }

  lemma NonNegativeRoundTrip(a: nat, s: string)
    requires s == UnsignedText(a)
    ensures ParseCentsText(s) == Some(a as int)
  {
    var u := s;
    UnsignedRoundTrip(a);
    assert !(|u| > 0 && u[0] == '-');
  }

  lemma NegativeRoundTrip(a: nat, s: string)
    requires a > 0 && s == "-" + UnsignedText(a)
    ensures ParseCentsText(s) == Some(-(a as int))
  {
    var u := UnsignedText(a);
    UnsignedRoundTrip(a);
    assert s[1..] == u;
    assert ParseUnsigned(s[1..]) == Some(a);
    assert |s| > 0 && s[0] == '-';
  }

  lemma CentsTextInjective(m: int, n: int)
    requires CentsText(m) == CentsText(n)
    ensures m == n
  {
    CentsTextRoundTrip(m);
    CentsTextRoundTrip(n);
  }
}
