/**
 * The .NET `decimal` as the model needs it: an integer mantissa scaled by a
 * power of ten between 0 and 28. `Math.Round(decimal, int)` rounds half to
 * even; `==` on decimals compares values, so 1.00m equals 1m; and the
 * invariant `ToString()` prints exactly `scale` digits after the point.
 */
module Decimals {
  import opened Text

  const MaxScale: nat := 28

  type Scale = s: nat | s <= MaxScale

  /** The number `mantissa / 10^scale`. */
  datatype Decimal = Decimal(mantissa: int, scale: Scale)

  const Zero := Decimal(0, 0)
  const One := Decimal(1, 0)

  function Pow10(n: nat): (p: nat)
    ensures p >= 1
  {
    if n == 0 then 1 else 10 * Pow10(n - 1)
  }

  function Abs(x: int): nat { if x < 0 then -x else x }

  /** Numeric equality of two decimals, whatever their scales (`==` on C# decimals). */
  predicate SameValue(a: Decimal, b: Decimal)
  {
    a.mantissa * Pow10(b.scale) == b.mantissa * Pow10(a.scale)
  }

  /** `d == 1m`. */
  predicate IsOne(d: Decimal)
    ensures IsOne(d) <==> SameValue(d, One)
  {
    d.mantissa == Pow10(d.scale)
  }

  lemma MulSucc(x: int, d: int)
    ensures (x + 1) * d == x * d + d
  {
  }

  lemma MulNeg(x: int, d: int)
    ensures (-x) * d == -(x * d)
  {
  }

  lemma MulSub(x: int, y: int, d: int)
    ensures x * d - y * d == (x - y) * d
  {
  }

  lemma DivMod(a: nat, d: nat)
    requires d >= 1
    ensures (a / d) * d == a - a % d
    ensures 0 <= a % d < d
  {
  }

  lemma MulAtLeastTwice(x: int, d: nat)
    requires x >= 2
    ensures x * d >= 2 * d
  {
  }

  /**
   * The integer nearest to `m / d`, ties going to the even neighbour
   * (MidpointRounding.ToEven, the default of `Math.Round`).
   */
  function RoundHalfEven(m: int, d: nat): (q: int)
    requires d >= 1
    ensures 2 * Abs(q * d - m) <= d
    ensures 2 * Abs(q * d - m) == d ==> q % 2 == 0
  {
    var a := Abs(m);
    var q0 := a / d;
    var r := a % d;
    DivMod(a, d);
    var up := 2 * r > d || (2 * r == d && q0 % 2 == 1);
    var qa := if up then q0 + 1 else q0;
    MulSucc(q0, d);
    assert qa * d - a == if up then d - r else -r;
    if m < 0 then
      MulNeg(qa, d);
      assert (-qa) * d - m == -(qa * d - a);
      -qa
    else qa
  }

  /** The two properties of `RoundHalfEven` single out its result. */
  lemma RoundHalfEvenUnique(m: int, d: nat, q: int)
    requires d >= 1
    requires 2 * Abs(q * d - m) <= d
    requires 2 * Abs(q * d - m) == d ==> q % 2 == 0
    ensures q == RoundHalfEven(m, d)
  {
    var p := RoundHalfEven(m, d);
    var e, f := q * d - m, p * d - m;
    if q - p >= 2 {
      MulSub(q, p, d);
      MulAtLeastTwice(q - p, d);
    } else if p - q >= 2 {
      MulSub(p, q, d);
      MulAtLeastTwice(p - q, d);
    } else if q == p + 1 {
      MulSucc(p, d);
    } else if p == q + 1 {
      MulSucc(q, d);
    }
  }

  /** `Math.Round(x, places)`. A value already within `places` digits is returned as it is. */
  function Round(x: Decimal, places: Scale): (r: Decimal)
    ensures r.scale <= places
    ensures x.scale <= places ==> r == x
    ensures x.scale > places ==>
      && r.scale == places
      && 2 * Abs(r.mantissa * Pow10(x.scale - places) - x.mantissa) <= Pow10(x.scale - places)
      && (2 * Abs(r.mantissa * Pow10(x.scale - places) - x.mantissa) == Pow10(x.scale - places) ==> r.mantissa % 2 == 0)
  {
    if x.scale <= places then x
    else Decimal(RoundHalfEven(x.mantissa, Pow10(x.scale - places)), places)
  }

  /** Rounding to 28 places changes nothing: every decimal already has at most 28. */
  lemma RoundToMaxScale(x: Decimal)
    ensures Round(x, MaxScale) == x
  {
  }

  /** Rounding twice to the same number of places is rounding once. */
  lemma RoundIdempotent(x: Decimal, places: Scale)
    ensures Round(Round(x, places), places) == Round(x, places)
  {
  }

  /**
   * The digits of `|mantissa|`, left-padded with zeros to exactly `scale + 1`
   * digits when they are fewer; there is never a second leading zero.
   */
  function PaddedDigits(d: Decimal): (s: string)
    ensures |s| > d.scale && AllDigits(s)
    ensures |s| == d.scale + 1 || s[0] != '0'
  {
    var digits := NatToString(Abs(d.mantissa));
    if |digits| > d.scale then digits
    else
      LeadingZeros(d.scale + 1 - |digits|, digits);
      Zeros(d.scale + 1 - |digits|) + digits
  }

  /** The padded digits denote the magnitude of the mantissa. */
  lemma PaddedDigitsValue(d: Decimal)
    ensures DigitsValue(PaddedDigits(d)) == Abs(d.mantissa)
  {
    var digits := NatToString(Abs(d.mantissa));
    NatToStringValue(Abs(d.mantissa));
    if |digits| <= d.scale {
      LeadingZeros(d.scale + 1 - |digits|, digits);
    }
  }

  /** The text after a leading '-', or all of it when there is none. */
  function StripSign(t: string): string
  {
    if |t| > 0 && t[0] == '-' then t[1..] else t
  }

  /** The text without the character `scale + 1` places from its end; all of it when `scale` is zero. */
  function RemovePoint(t: string, scale: nat): string
    requires |t| > scale
  {
    if scale == 0 then t else t[..|t| - scale - 1] + t[|t| - scale..]
  }

  /** `digits` with a '.' before the last `scale` of them; unchanged when `scale` is zero. */
  function InsertPoint(digits: string, scale: nat): (body: string)
    requires |digits| > scale && AllDigits(digits)
    ensures |body| > scale && body[0] != '-'
    ensures RemovePoint(body, scale) == digits
    ensures scale == 0 ==> '.' !in body
    ensures scale > 0 ==> body[|body| - scale - 1] == '.'
  {
    if scale == 0 then
      assert forall i :: 0 <= i < |digits| ==> digits[i] != '.';
      digits
    else
      var split := |digits| - scale;
      var body := digits[..split] + "." + digits[split..];
      assert body[..split] + body[split + 1..] == digits;
      body
  }

  /**
   * Invariant-culture `decimal.ToString()`: a '-' for negative values, then the
   * padded digits of the mantissa with a '.' before the last `scale` of them.
   */
  function Format(d: Decimal): (s: string)
    ensures d.mantissa < 0 <==> |s| > 0 && s[0] == '-'
    ensures d.scale > 0 ==> |s| > d.scale && s[|s| - d.scale - 1] == '.'
    ensures d.scale == 0 ==> '.' !in s
  {
    var body := InsertPoint(PaddedDigits(d), d.scale);
    if d.mantissa < 0 then "-" + body else body
  }

  /**
   * Without its sign and its point, the text of `d` is its padded digit
   * string, whose value is the magnitude of the mantissa.
   */
  lemma FormatShowsDigits(d: Decimal)
    ensures |StripSign(Format(d))| > d.scale
    ensures RemovePoint(StripSign(Format(d)), d.scale) == PaddedDigits(d)
    ensures DigitsValue(PaddedDigits(d)) == Abs(d.mantissa)
  {
    var body := InsertPoint(PaddedDigits(d), d.scale);
    if d.mantissa < 0 {
      assert ("-" + body)[1..] == body;
    }
    assert StripSign(Format(d)) == body;
    PaddedDigitsValue(d);
  }

  lemma FormatExamples()
    ensures Format(Decimal(150, 2)) == "1.50"
    ensures Format(Decimal(-5, 3)) == "-0.005"
    ensures Format(Decimal(42, 0)) == "42"
  {
    assert NatToString(1) == "1";
    assert NatToString(15) == "15";
    assert NatToString(150) == "150";
    assert PaddedDigits(Decimal(150, 2)) == "150";
    assert InsertPoint("150", 2) == "1.50";
    assert NatToString(5) == "5";
    assert Zeros(3) == "000";
    assert PaddedDigits(Decimal(-5, 3)) == "0005";
    assert InsertPoint("0005", 3) == "0.005";
    assert NatToString(4) == "4";
    assert NatToString(42) == "42";
  }
}
