/**
 * Decimal numbers as `float()` reads them from the extractor's captured
 * amounts, kept exact: a value is a whole number of units at a decimal scale.
 */
module Numbers {
  import opened Wrappers
  import opened Text

  predicate AllDigits(t: string) {
    forall k :: 0 <= k < |t| ==> IsDigit(t[k])
  }

  function DigitValue(c: char): (v: nat)
    requires IsDigit(c)
    ensures v < 10
  {
    (c as int) - ('0' as int)
  }

  function Pow10(n: nat): (r: nat)
    ensures r >= 1
  {
    if n == 0 then 1 else 10 * Pow10(n - 1)
  }

  /** The number a run of decimal digits denotes, most significant first. */
  function DigitsValue(t: string): (v: nat)
    requires AllDigits(t)
    ensures v < Pow10(|t|)
  {
    if t == [] then 0 else 10 * DigitsValue(t[..|t| - 1]) + DigitValue(t[|t| - 1])
  }

  lemma AllDigitsAppend(a: string, b: string)
    requires AllDigits(a) && AllDigits(b)
    ensures AllDigits(a + b)
  {
    forall k | 0 <= k < |a + b|
      ensures IsDigit((a + b)[k])
    {
      if k < |a| { assert (a + b)[k] == a[k]; } else { assert (a + b)[k] == b[k - |a|]; }
    }
  }

  /** Digits written one after the other: the value shifts left by the second run's length. */
  lemma {:induction false} DigitsValueAppend(a: string, b: string)
    requires AllDigits(a) && AllDigits(b)
    ensures AllDigits(a + b) && DigitsValue(a + b) == DigitsValue(a) * Pow10(|b|) + DigitsValue(b)
    decreases |b|
  {
    AllDigitsAppend(a, b);
    if b == [] {
      assert a + b == a;
    } else {
      var b' := b[..|b| - 1];
      var c := b[|b| - 1];
      assert a + b == (a + b') + [c];
      assert b == b' + [c];
      AllDigitsAppend(a, b');
      DigitsValueAppend(a, b');
      LastDigit(a + b', c);
      LastDigit(b', c);
      ShiftStep(DigitsValue(a), Pow10(|b'|), DigitsValue(b'), DigitValue(c));
    }
  }

  lemma LastDigit(t: string, c: char)
    requires AllDigits(t) && IsDigit(c)
    ensures AllDigits(t + [c]) && DigitsValue(t + [c]) == 10 * DigitsValue(t) + DigitValue(c)
  {
    assert (t + [c])[..|t|] == t;
  }

  lemma ShiftStep(x: nat, q: nat, y: nat, d: nat)
    ensures 10 * (x * q + y) + d == x * (10 * q) + (10 * y + d)
  {
  }

  /** `units / 10^scale`, exactly as written, with no rounding. */
  datatype Decimal = Decimal(units: int, scale: nat)

  /** Splits `u` at its first `.`, if it has one: the whole part and the fraction. */
  function SplitPoint(u: string): (r: (string, string))
    ensures '.' !in u ==> r == (u, "")
    ensures '.' in u ==> u == r.0 + "." + r.1 && '.' !in r.0
  {
    if '.' in u then
      var k := IndexOf(u, '.');
      assert u == u[..k] + "." + u[k + 1..];
      (u[..k], u[k + 1..])
    else (u, "")
  }

  /**
   * `float(t)` for text in positional decimal notation: surrounding
   * whitespace, an optional sign, then digits with at most one `.` and at
   * least one digit.  Text outside that form reads as `None` here, although
   * Python's `float` also accepts exponents, `inf`, `nan` and underscores
   * between digits; the extractor only ever hands it digits with one point.
   */
  function ParseFloat(t: string): Option<Decimal> {
    var u := Strip(t);
    if u != [] && u[0] == '-' then Negate(ParseUnsigned(u[1..]))
    else if u != [] && u[0] == '+' then ParseUnsigned(u[1..])
    else ParseUnsigned(u)
  }

  /** Digits with at most one `.` and at least one digit, read at the fraction's scale. */
  function ParseUnsigned(body: string): Option<Decimal> {
    var (whole, fraction) := SplitPoint(body);
    if AllDigits(whole) && AllDigits(fraction) && |whole| + |fraction| >= 1 then
      AllDigitsAppend(whole, fraction);
      Some(Decimal(DigitsValue(whole + fraction), |fraction|))
    else None
  }

  function Negate(d: Option<Decimal>): Option<Decimal> {
    match d
    case None => None
    case Some(Decimal(units, scale)) => Some(Decimal(-units, scale))
  }

  /** Positional notation without sign or padding reads back as its digits at the fraction's scale. */
  lemma ParseFloatPoint(whole: string, fraction: string)
    requires AllDigits(whole) && AllDigits(fraction) && |whole| + |fraction| >= 1
    ensures AllDigits(whole + fraction)
    ensures ParseFloat(whole + ("." + fraction)) == Some(Decimal(DigitsValue(whole + fraction), |fraction|))
  {
    PointTrimmed(whole, fraction);
    PointSplit(whole, fraction);
    AllDigitsAppend(whole, fraction);
    assert ParseFloat(whole + ("." + fraction)) == ParseUnsigned(whole + ("." + fraction));
  }

  /** Digits around a point have no surrounding whitespace and no sign. */
  lemma PointTrimmed(whole: string, fraction: string)
    requires AllDigits(whole) && AllDigits(fraction)
    ensures var t := whole + ("." + fraction); Strip(t) == t && t[0] != '+' && t[0] != '-'
  {
    var t := whole + ("." + fraction);
    assert t[|whole|] == '.';
    assert whole != [] ==> t[0] == whole[0];
    assert fraction != [] ==> t[|t| - 1] == fraction[|fraction| - 1];
    assert Trimmed(t);
  }

  /** Text without a point, a point, then more text: split at that point. */
  lemma PointSplit(whole: string, fraction: string)
    requires '.' !in whole
    ensures SplitPoint(whole + ("." + fraction)) == (whole, fraction)
  {
    var u := whole + ("." + fraction);
    assert u[|whole|] == '.';
    var k := IndexOf(u, '.');
    assert k == |whole|;
    assert u[..k] == whole;
    assert u[k + 1..] == fraction;
  }
}
