/** Fixed-point decimal text: JavaScript `Number.prototype.toFixed(d)` and
    Python's `f"{v:.{d}f}"`, together with the `float()` reading of such
    text. Values are exact reals and a tie rounds away from zero, as
    `toFixed` does on a tie; Python instead rounds the nearest double and
    breaks ties to even. */
module Decimal {
  import opened Text
  import opened Wrappers
  import SeqMath

  function Pow10(d: nat): (p: nat)
    ensures p >= 1
  {
    if d == 0 then 1 else 10 * Pow10(d - 1)
  }

  function Abs(v: real): real { if v < 0.0 then -v else v }

  /** `v` is a whole number (Python `float.is_integer`). */
  predicate IsInteger(v: real) { v == v.Floor as real }

  /** The integer nearest to v * 10^d, ties away from zero. */
  function RoundScaled(v: real, d: nat): (q: int)
    ensures v >= 0.0 ==> q >= 0
    ensures v < 0.0 ==> q <= 0
  {
    var p := Pow10(d) as real;
    if v >= 0.0 then (v * p + 0.5).Floor else -((-v * p + 0.5).Floor)
  }

  /** The nearest integer lies within one half of v * 10^d. */
  lemma RoundScaledWithin(v: real, d: nat)
    ensures v * Pow10(d) as real - 0.5 <= RoundScaled(v, d) as real <= v * Pow10(d) as real + 0.5
  {
  }

  /** The value that `FixedText(v, d)` denotes. */
  function Rounded(v: real, d: nat): (r: real)
    ensures v >= 0.0 ==> r >= 0.0
  {
    RoundScaled(v, d) as real / Pow10(d) as real
  }

  /** The rounded value lies within half a unit of the last kept place. */
  lemma RoundedWithin(v: real, d: nat)
    ensures v - 0.5 / Pow10(d) as real <= Rounded(v, d) <= v + 0.5 / Pow10(d) as real
  {
    var p := Pow10(d) as real;
    var q := RoundScaled(v, d) as real;
    RoundScaledWithin(v, d);
    assert 0.5 / p * p == 0.5;
    assert (v - 0.5 / p) * p == v * p - 0.5 && (v + 0.5 / p) * p == v * p + 0.5;
    SeqMath.LowerBoundDiv(v - 0.5 / p, q, p);
    SeqMath.UpperBoundDiv(v + 0.5 / p, q, p);
  }

  /** Rounding never carries a value past a whole-number bound above it. */
  lemma RoundedAtMost(v: real, bound: nat, d: nat)
    requires v <= bound as real
    ensures Rounded(v, d) <= bound as real
  {
    var p := Pow10(d);
    var q := RoundScaled(v, d);
    if v >= 0.0 {
      assert v * p as real + 0.5 < (bound * p + 1) as real;
      assert q <= bound * p;
    }
    assert q as real <= (bound * p) as real;
    SeqMath.UpperBoundDiv(bound as real, q as real, p as real);
  }

  function FractionText(a: nat, d: nat): string
  {
    if d == 0 then "" else "." + ZeroPad(NatToString(Rem(a, d)), d)
  }

  /** `v.toFixed(d)` / `f"{v:.{d}f}"`: optional minus sign, the integer
      digits, then exactly `d` fraction digits after a point when d > 0. */
  function FixedText(v: real, d: nat): string
  {
    (if v < 0.0 then "-" else "") + Unsigned(Magnitude(RoundScaled(v, d)), d)
  }

  function Magnitude(q: int): nat { if q < 0 then -q else q }

  /** The digits of a / 10^d with exactly d of them after the point. */
  function Unsigned(a: nat, d: nat): string
  {
    NatToString(Quo(a, d)) + FractionText(a, d)
  }

  /** The whole part of a / 10^d. */
  function Quo(a: nat, d: nat): nat
  {
    DivModNat(a, Pow10(d));
    a / Pow10(d)
  }

  /** With no fraction digits the text is the number's own digits. */
  lemma WholeUnsigned(a: nat)
    ensures Unsigned(a, 0) == NatToString(a)
  {
    assert Pow10(0) == 1;
    assert Quo(a, 0) == a;
  }

  /** The d last digits of a, as a number below 10^d. */
  function Rem(a: nat, d: nat): (r: nat)
    ensures r < Pow10(d)
  {
    DivModNat(a, Pow10(d));
    a % Pow10(d)
  }

  /** Quotient and remainder of a natural number by a positive one. */
  lemma DivModNat(a: nat, p: nat)
    requires p >= 1
    ensures a / p >= 0 && 0 <= a % p < p
  {
  }

  /** Python `float(s)` restricted to the spellings `[-]digits[.digits]`;
      anything else is reported as unparseable. */
  function ParseFloat(s: string): Option<real>
  {
    if s != [] && s[0] == '-' then
      match ParseUnsigned(s[1..])
      case Some(x) => Some(-x)
      case None => None
    else ParseUnsigned(s)
  }

  function ParseUnsigned(s: string): Option<real>
  {
    var parts := Split(s, '.');
    if |parts| == 1 && parts[0] != [] && AllDigits(parts[0]) then
      Some(ParseDigits(parts[0]) as real)
    else if |parts| == 2 && parts[0] != [] && parts[1] != [] && AllDigits(parts[0]) && AllDigits(parts[1]) then
      Some(PointValue(ParseDigits(parts[0]), ParseDigits(parts[1]), |parts[1]|))
    else None
  }

  /** The number written `x.y` where y has d digits. */
  function PointValue(x: nat, y: nat, d: nat): real
  {
    x as real + y as real / Pow10(d) as real
  }

  lemma DigitsFree(s: string, c: char)
    requires AllDigits(s) && !IsDigit(c)
    ensures Free(s, c)
  {
  }

  lemma NegateDiv(q: int, pr: real)
    requires q <= 0 && pr > 0.0
    ensures -(Magnitude(q) as real / pr) == q as real / pr
  {
    assert Magnitude(q) as real == -(q as real);
  }

  lemma DivModReal(a: nat, p: nat)
    requires p >= 1
    ensures (a / p) as real + (a % p) as real / p as real == a as real / p as real
  {
    var pr := p as real;
    assert a == (a / p) * p + a % p;
    assert a as real == (a / p) as real * pr + (a % p) as real;
    assert (a / p) as real == (a / p) as real * pr / pr;
  }

  lemma ParseUnsignedText(a: nat, d: nat)
    ensures Unsigned(a, d) != [] && IsDigit(Unsigned(a, d)[0])
    ensures ParseUnsigned(Unsigned(a, d)) == Some(a as real / Pow10(d) as real)
  {
    if d == 0 { ParseWholeText(a); } else { ParseFractionText(a, d); }
  }

  lemma ParseWholeText(a: nat)
    ensures Unsigned(a, 0) != [] && IsDigit(Unsigned(a, 0)[0])
    ensures ParseUnsigned(Unsigned(a, 0)) == Some(a as real)
  {
    var ip := NatToString(a);
    WholeUnsigned(a);
    ParseNatToString(a);
    DigitsFree(ip, '.');
    SplitFree(ip, '.');
  }

  lemma ParseFractionText(a: nat, d: nat)
    requires d > 0
    ensures Unsigned(a, d) != [] && IsDigit(Unsigned(a, d)[0])
    ensures ParseUnsigned(Unsigned(a, d)) == Some(a as real / Pow10(d) as real)
  {
    UnsignedShape(a, d);
    ReadFraction(Quo(a, d), Rem(a, d), d);
    PointDivMod(a, d);
  }

  lemma UnsignedShape(a: nat, d: nat)
    requires d > 0
    ensures Unsigned(a, d) == NatToString(Quo(a, d)) + ['.'] + ZeroPad(NatToString(Rem(a, d)), d)
  {
    var fp := ZeroPad(NatToString(Rem(a, d)), d);
    assert FractionText(a, d) == ['.'] + fp;
  }

  lemma PointDivMod(a: nat, d: nat)
    ensures PointValue(Quo(a, d), Rem(a, d), d) == a as real / Pow10(d) as real
  {
    DivModReal(a, Pow10(d));
  }

  /** Integer digits, a point and d padded fraction digits read back as q + r / 10^d. */
  lemma ReadFraction(q: nat, r: nat, d: nat)
    requires d > 0 && r < Pow10(d)
    ensures IsDigit((NatToString(q) + ['.'] + ZeroPad(NatToString(r), d))[0])
    ensures ParseUnsigned(NatToString(q) + ['.'] + ZeroPad(NatToString(r), d)) == Some(PointValue(q, r, d))
  {
    var ip, fp := NatToString(q), ZeroPad(NatToString(r), d);
    ParseNatToString(q);
    FractionDigits(r, d);
    FractionSplit(ip, fp);
  }

  /** The remainder's digits, padded to d places, read back as the remainder. */
  lemma FractionDigits(r: nat, d: nat)
    requires d > 0 && r < Pow10(d)
    ensures ParseDigits(ZeroPad(NatToString(r), d)) == r
    ensures |ZeroPad(NatToString(r), d)| == d
  {
    PaddedParse(r, d);
    DigitCount(r, d);
  }

  /** A number below 10^d has at most d digits (one digit for zero). */
  lemma {:induction false} DigitCount(n: nat, d: nat)
    requires d > 0 && n < Pow10(d)
    ensures |NatToString(n)| <= d
  {
    if n >= 10 {
      assert d > 1;
      assert n / 10 < Pow10(d - 1);
      DigitCount(n / 10, d - 1);
    }
  }

  lemma FractionSplit(ip: string, fp: string)
    requires AllDigits(ip) && AllDigits(fp) && ip != [] && fp != []
    ensures IsDigit((ip + ['.'] + fp)[0])
    ensures ParseUnsigned(ip + ['.'] + fp) == Some(PointValue(ParseDigits(ip), ParseDigits(fp), |fp|))
  {
    SplitAtPoint(ip, fp);
    ReadAtPoint(ip, fp);
  }

  lemma SplitAtPoint(ip: string, fp: string)
    requires AllDigits(ip) && AllDigits(fp)
    ensures Split(ip + ['.'] + fp, '.') == [ip, fp]
  {
    DigitsFree(ip, '.');
    DigitsFree(fp, '.');
    SplitAtSeparator(ip, '.', fp);
    SplitFree(fp, '.');
  }

  lemma ReadAtPoint(ip: string, fp: string)
    requires AllDigits(ip) && AllDigits(fp) && ip != [] && fp != []
    requires Split(ip + ['.'] + fp, '.') == [ip, fp]
    ensures ParseUnsigned(ip + ['.'] + fp) == Some(PointValue(ParseDigits(ip), ParseDigits(fp), |fp|))
  {
  }

  /** Reading back the text of a rounded number gives the rounded value. */
  lemma ParseFixedText(v: real, d: nat)
    ensures ParseFloat(FixedText(v, d)) == Some(Rounded(v, d))
  {
    if v < 0.0 { ParseNegativeText(v, d); } else { ParseNonNegativeText(v, d); }
  }

  lemma ParseNegativeText(v: real, d: nat)
    requires v < 0.0
    ensures ParseFloat(FixedText(v, d)) == Some(Rounded(v, d))
  {
    NegativeFixedText(v, d);
    ParseNegativeScaled(RoundScaled(v, d), d);
  }

  /** The text of a non-positive scaled integer, with its minus sign,
      reads back as its value. */
  lemma ParseNegativeScaled(q: int, d: nat)
    requires q <= 0
    ensures ParseFloat("-" + Unsigned(Magnitude(q), d)) == Some(q as real / Pow10(d) as real)
  {
    var pr := Pow10(d) as real;
    var x := Magnitude(q) as real / pr;
    ParseUnsignedText(Magnitude(q), d);
    ParseMinusValue(Unsigned(Magnitude(q), d), x, q as real / pr) by {
      NegateDiv(q, pr);
    }
  }

  /** ParseMinus with the negated value given by its own name. */
  lemma ParseMinusValue(body: string, x: real, y: real)
    requires ParseUnsigned(body) == Some(x) && -x == y
    ensures ParseFloat("-" + body) == Some(y)
  {
    ParseMinus(body, x);
  }

  lemma NegativeFixedText(v: real, d: nat)
    requires v < 0.0
    ensures FixedText(v, d) == "-" + Unsigned(Magnitude(RoundScaled(v, d)), d)
  {
  }

  /** A minus sign before a readable unsigned numeral negates it. */
  lemma ParseMinus(body: string, x: real)
    requires ParseUnsigned(body) == Some(x)
    ensures ParseFloat("-" + body) == Some(-x)
  {
    assert ("-" + body)[1..] == body;
  }

  lemma ParseNonNegativeText(v: real, d: nat)
    requires v >= 0.0
    ensures ParseFloat(FixedText(v, d)) == Some(Rounded(v, d))
  {
    var q := RoundScaled(v, d);
    var body := Unsigned(Magnitude(q), d);
    ParseUnsignedText(Magnitude(q), d);
    assert FixedText(v, d) == body;
    assert body[0] != '-';
  }

  /** Characters a fixed-point numeral is made of. */
  predicate NumeralChar(c: char) { IsDigit(c) || c == '-' || c == '.' }

  /** The text of a rounded number is a sign, digits and a point: no
      whitespace at either end, never the bare "-", no bar and no newline. */
  lemma FixedTextShape(v: real, d: nat)
    ensures FixedText(v, d) != [] && FixedText(v, d) != "-"
    ensures forall i :: 0 <= i < |FixedText(v, d)| ==> NumeralChar(FixedText(v, d)[i])
    ensures IsDigit(FixedText(v, d)[|FixedText(v, d)| - 1])
  {
    var body := Unsigned(Magnitude(RoundScaled(v, d)), d);
    UnsignedTextShape(Magnitude(RoundScaled(v, d)), d);
    var sign: string := if v < 0.0 then "-" else "";
    var s := sign + body;
    assert FixedText(v, d) == s;
    forall i | 0 <= i < |s|
      ensures NumeralChar(s[i])
    {
      if i >= |sign| { assert s[i] == body[i - |sign|]; }
    }
    assert s[|s| - 1] == body[|body| - 1];
  }

  lemma UnsignedTextShape(a: nat, d: nat)
    ensures Unsigned(a, d) != [] && IsDigit(Unsigned(a, d)[0])
    ensures forall i :: 0 <= i < |Unsigned(a, d)| ==> NumeralChar(Unsigned(a, d)[i])
    ensures IsDigit(Unsigned(a, d)[|Unsigned(a, d)| - 1])
  {
    var whole := NatToString(Quo(a, d));
    if d > 0 {
      var pad := ZeroPad(NatToString(Rem(a, d)), d);
      assert FractionText(a, d) == "." + pad;
      assert Unsigned(a, d) == whole + "." + pad;
    } else {
      assert Unsigned(a, d) == whole;
    }
  }

  /** `float(str(n))` is n. */
  lemma ParseNatText(n: nat)
    ensures ParseFloat(NatToString(n)) == Some(n as real)
  {
    ParseWholeText(n);
    WholeUnsigned(n);
  }
  /** With d > 0 the text has exactly one point followed by exactly d
      digits; with d == 0 it has no point at all. */
  lemma FixedTextPlaces(v: real, d: nat)
    ensures d == 0 ==> Free(FixedText(v, d), '.')
    ensures d > 0 ==> |Split(FixedText(v, d), '.')| == 2 && |Split(FixedText(v, d), '.')[1]| == d
  {
    var sign: string := if v < 0.0 then "-" else "";
    UnsignedPlaces(sign, Magnitude(RoundScaled(v, d)), d);
  }

  lemma UnsignedPlaces(sign: string, a: nat, d: nat)
    requires sign == "" || sign == "-"
    ensures d == 0 ==> Free(sign + Unsigned(a, d), '.')
    ensures d > 0 ==> |Split(sign + Unsigned(a, d), '.')| == 2 && |Split(sign + Unsigned(a, d), '.')[1]| == d
  {
    if d == 0 {
      WholeUnsigned(a);
      SignedFree(sign, NatToString(a));
    } else {
      FractionPlaces(sign, a, d);
    }
  }

  lemma FractionPlaces(sign: string, a: nat, d: nat)
    requires sign == "" || sign == "-"
    requires d > 0
    ensures |Split(sign + Unsigned(a, d), '.')| == 2 && |Split(sign + Unsigned(a, d), '.')[1]| == d
  {
    var w, fp := NatToString(Quo(a, d)), ZeroPad(NatToString(Rem(a, d)), d);
    SignedShape(sign, a, d);
    FractionDigits(Rem(a, d), d);
    SignedPointSplit(sign, w, fp);
  }

  /** The signed text of a number with d > 0 fraction digits. */
  lemma SignedShape(sign: string, a: nat, d: nat)
    requires d > 0
    ensures sign + Unsigned(a, d) == sign + NatToString(Quo(a, d)) + ['.'] + ZeroPad(NatToString(Rem(a, d)), d)
  {
    UnsignedShape(a, d);
  }

  lemma SignedPointSplit(sign: string, whole: string, fp: string)
    requires sign == "" || sign == "-"
    requires AllDigits(whole) && AllDigits(fp)
    ensures Split(sign + whole + ['.'] + fp, '.') == [sign + whole, fp]
  {
    SignedFree(sign, whole);
    PointSplit(sign + whole, fp);
  }

  lemma SignedFree(sign: string, digits: string)
    requires sign == "" || sign == "-"
    requires AllDigits(digits)
    ensures Free(sign + digits, '.')
  {
    var s := sign + digits;
    forall i | 0 <= i < |s| ensures s[i] != '.' {
      if i >= |sign| { assert s[i] == digits[i - |sign|]; }
    }
  }

  lemma PointSplit(ip: string, fp: string)
    requires Free(ip, '.') && AllDigits(fp)
    ensures Split(ip + ['.'] + fp, '.') == [ip, fp]
  {
    SplitAtSeparator(ip, '.', fp);
    DigitsFree(fp, '.');
    SplitFree(fp, '.');
  }
}
