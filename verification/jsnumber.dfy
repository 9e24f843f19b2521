/**
 * The JavaScript number conversions the forms and the history view apply to
 * user input and to RPC strings: `parseInt`, `Number(...)`, `BigInt(...)`.
 * Numbers are kept as exact reals: IEEE-754 rounding and the infinities are
 * not modelled.
 */
module JsNumber {
  import opened Wrappers
  import opened JsString

  /** A JavaScript number: NaN, or a finite value held exactly. */
  datatype Num = NaN | Finite(value: real)

  predicate IsDigit(c: char) { '0' <= c <= '9' }

  predicate AllDigits(s: string)
  {
    forall i :: 0 <= i < |s| ==> IsDigit(s[i])
  }

  function DigitValue(c: char): nat
    requires IsDigit(c)
  {
    (c as int) - ('0' as int)
  }

  /** The value of a decimal digit string, most significant digit first. */
  function DigitsValue(s: string): nat
    requires AllDigits(s)
  {
    if s == [] then 0 else 10 * DigitsValue(s[..|s| - 1]) + DigitValue(s[|s| - 1])
  }

  function Pow10(n: nat): (p: nat)
    ensures p >= 1
  {
    if n == 0 then 1 else 10 * Pow10(n - 1)
  }

  /** `x * 10 ** e` for an integer exponent, exactly, one factor of ten at a time. */
  function TimesPow10(x: real, e: int): real
    decreases if e < 0 then -e else e
  {
    if e == 0 then x
    else if e > 0 then 10.0 * TimesPow10(x, e - 1)
    else TimesPow10(x, e + 1) / 10.0
  }

  predicate IsIntegral(v: real)
  {
    v.Floor as real == v
  }

  /** Length of the run of decimal digits that starts `s`. */
  function DigitRun(s: string): (k: nat)
    ensures k <= |s| && AllDigits(s[..k])
    ensures k < |s| ==> !IsDigit(s[k])
  {
    if s != [] && IsDigit(s[0]) then
      var k := 1 + DigitRun(s[1..]);
      assert forall i :: 1 <= i < k ==> s[..k][i] == s[1..][..k - 1][i - 1];
      k
    else 0
  }

  /** An optional `+` or `-` followed by at least one digit, and nothing else. */
  function SignedDigits(s: string): (r: Option<int>)
  {
    var negative := s != [] && s[0] == '-';
    var digits := if s != [] && (s[0] == '-' || s[0] == '+') then s[1..] else s;
    if digits != [] && AllDigits(digits) then
      var v: int := DigitsValue(digits);
      Some(if negative then -v else v)
    else None
  }

  /**
   * `parseInt(s)` with the default radix: leading white space, an optional
   * sign, then as many decimal digits as there are; NaN when there are none.
   */
  function ParseInt(s: string): (r: Option<int>)
    ensures var t := TrimStart(s);
      var body := if t != [] && (t[0] == '-' || t[0] == '+') then t[1..] else t;
      r.None? <==> body == [] || !IsDigit(body[0])
    ensures r.Some? && r.value < 0 ==> TrimStart(s)[0] == '-'
  {
    var t := TrimStart(s);
    var negative := t != [] && t[0] == '-';
    var body := if t != [] && (t[0] == '-' || t[0] == '+') then t[1..] else t;
    var k := DigitRun(body);
    if k == 0 then None
    else
      var v: int := DigitsValue(body[..k]);
      Some(if negative then -v else v)
  }

  /** An exponent part `e12`, `E-3`, `e+4` making up the whole of `s`. */
  function ExponentPart(s: string): (r: Option<int>)
  {
    if s != [] && (s[0] == 'e' || s[0] == 'E') then SignedDigits(s[1..]) else None
  }

  /** An unsigned decimal literal `12`, `12.`, `.5`, `1.25e3` making up the whole of `t`. */
  function UnsignedDecimal(t: string): (n: Num)
    ensures n.Finite? ==> n.value >= 0.0
  {
    var k := DigitRun(t);
    var afterInt := t[k..];
    var hasDot := afterInt != [] && afterInt[0] == '.';
    var fraction := if hasDot then afterInt[1..] else afterInt;
    var m := if hasDot then DigitRun(fraction) else 0;
    var tail := fraction[m..];
    if k == 0 && m == 0 then NaN
    else ScaledByExponent(Mantissa(t[..k], fraction[..m]), tail)
  }

  /** The mantissa of `ds.fs`: the integer part plus the fraction digits scaled down by their count. */
  function Mantissa(ds: string, fs: string): (v: real)
    requires AllDigits(ds) && AllDigits(fs)
    ensures v >= 0.0
  {
    TimesPow10Sign(DigitsValue(fs) as real, -|fs|);
    DigitsValue(ds) as real + TimesPow10(DigitsValue(fs) as real, -|fs|)
  }

  /** The mantissa followed by what is left of the literal: nothing, or an exponent part. */
  function ScaledByExponent(mantissa: real, tail: string): (n: Num)
    ensures mantissa >= 0.0 && n.Finite? ==> n.value >= 0.0
  {
    if tail == [] then Finite(mantissa)
    else match ExponentPart(tail)
      case None => NaN
      case Some(e) =>
        TimesPow10Sign(mantissa, e);
        Finite(TimesPow10(mantissa, e))
  }

  /**
   * `Number(s)`: the trimmed string as a signed decimal literal; the empty
   * (or all-white-space) string is 0; anything else is NaN.
   */
  function ToNumber(s: string): (n: Num)
    ensures AllSpace(s) ==> n == Finite(0.0)
    ensures n.Finite? && n.value < 0.0 ==> Trim(s) != [] && Trim(s)[0] == '-'
  {
    TrimStartSpec(s);
    var t := Trim(s);
    if t == [] then Finite(0.0)
    else if t[0] == '-' then
      match UnsignedDecimal(t[1..])
      case NaN => NaN
      case Finite(v) => Finite(-v)
    else if t[0] == '+' then UnsignedDecimal(t[1..])
    else UnsignedDecimal(t)
  }

  /** `BigInt(n)` for a number: throws (None) on NaN and on a non-integral value. */
  function NumberToBigInt(n: Num): (r: Option<int>)
    ensures r.Some? <==> n.Finite? && IsIntegral(n.value)
    ensures r.Some? ==> r.value as real == n.value
  {
    if n.Finite? && IsIntegral(n.value) then Some(n.value.Floor) else None
  }

  /**
   * `BigInt(s)` for a string: white space around an optionally signed decimal
   * integer, the empty string being 0; None for any other text, including the
   * `0x`, `0o` and `0b` literals that `BigInt` would read in another radix.
   */
  function StringToBigInt(s: string): (r: Option<int>)
    ensures AllSpace(s) ==> r == Some(0)
    ensures r.Some? && r.value < 0 ==> Trim(s) != [] && Trim(s)[0] == '-'
  {
    TrimStartSpec(s);
    var t := Trim(s);
    if t == [] then Some(0) else SignedDigits(t)
  }

  lemma {:induction false} DigitRunOfDigits(ds: string, rest: string)
    requires AllDigits(ds)
    requires rest == [] || !IsDigit(rest[0])
    ensures DigitRun(ds + rest) == |ds|
  {
    if ds != [] {
      assert (ds + rest)[0] == ds[0];
      assert (ds + rest)[1..] == ds[1..] + rest;
      DigitRunOfDigits(ds[1..], rest);
    } else {
      assert ds + rest == rest;
    }
  }

  /** `parseInt` reads a digit string up to the first character that is not a digit. */
  lemma ParseIntStopsAtNonDigit(ds: string, rest: string)
    requires ds != [] && AllDigits(ds)
    requires rest == [] || !IsDigit(rest[0])
    ensures ParseInt(ds + rest) == Some(DigitsValue(ds))
  {
    var t := ds + rest;
    assert t[0] == ds[0];
    assert IsDigit(t[0]) && !IsSpace(t[0]);
    assert TrimStart(t) == t;
    DigitRunOfDigits(ds, rest);
    assert t[..|ds|] == ds;
  }

  /** `Number` of a plain digit string is the integer it spells. */
  lemma ToNumberOfDigits(ds: string)
    requires ds != [] && AllDigits(ds)
    ensures ToNumber(ds) == Finite(DigitsValue(ds) as real)
  {
    assert IsDigit(ds[0]) && !IsSpace(ds[0]);
    assert IsDigit(ds[|ds| - 1]) && !IsSpace(ds[|ds| - 1]);
    assert TrimStart(ds) == ds;
    assert TrimEnd(ds) == ds;
    assert Trim(ds) == ds;
    DigitRunOfDigits(ds, []);
    assert ds + [] == ds;
    UnsignedDecimalOfDigits(ds);
  }

  lemma UnsignedDecimalOfDigits(ds: string)
    requires ds != [] && AllDigits(ds)
    ensures UnsignedDecimal(ds) == Finite(DigitsValue(ds) as real)
  {
    assert DigitRun(ds) == |ds| by {
      DigitRunOfDigits(ds, []);
      assert ds + [] == ds;
    }
    assert ds[|ds|..] == [] && ds[..|ds|] == ds;
    NoFraction(DigitsValue(ds));
  }

  /** A literal that neither starts nor ends with white space is its own `trim`. */
  lemma TrimOfLiteral(t: string)
    requires t != [] && !IsSpace(t[0]) && !IsSpace(t[|t| - 1])
    ensures Trim(t) == t
  {
    assert TrimStart(t) == t;
    assert TrimEnd(t) == t;
  }

  /** The sign of an exponent part, as text. */
  function ExponentSign(negative: bool): string
  {
    if negative then "-" else ""
  }

  /** The value of the digits `es` as an exponent, negated after a minus sign. */
  function SignedExponent(negative: bool, es: string): int
    requires AllDigits(es)
  {
    if negative then -(DigitsValue(es) as int) else DigitsValue(es)
  }

  /** `e12` or `e-3` is read as the signed exponent it spells. */
  lemma ExponentPartOf(negative: bool, es: string)
    requires es != [] && AllDigits(es)
    ensures ExponentPart("e" + ExponentSign(negative) + es) == Some(SignedExponent(negative, es))
  {
    var body := ExponentSign(negative) + es;
    assert ("e" + body)[1..] == body;
    assert "e" + ExponentSign(negative) + es == "e" + body;
    if negative {
      assert body[0] == '-' && body[1..] == es;
    } else {
      assert body == es && IsDigit(body[0]);
    }
  }

  /** `Number` of a literal with nothing to trim and no sign is the unsigned decimal it spells. */
  lemma ToNumberOfUnsigned(t: string)
    requires t != [] && (IsDigit(t[0]) || t[0] == '.')
    requires IsDigit(t[|t| - 1]) || t[|t| - 1] == '.'
    ensures ToNumber(t) == UnsignedDecimal(t)
  {
    TrimOfLiteral(t);
  }

  /**
   * A literal with a decimal point, `ds.fs`, followed by `tail`, which
   * starts with a non-digit: how `UnsignedDecimal` cuts it into its parts.
   */
  lemma PointLiteralParts(ds: string, fs: string, tail: string)
    requires AllDigits(ds) && AllDigits(fs)
    requires tail == [] || !IsDigit(tail[0])
    ensures var t := ds + "." + fs + tail;
      var k := DigitRun(t);
      && k == |ds| && t[..k] == ds && t[k..] != [] && t[k..][0] == '.'
      && DigitRun(t[k..][1..]) == |fs|
      && t[k..][1..][..|fs|] == fs && t[k..][1..][|fs|..] == tail
  {
    var t := ds + "." + fs + tail;
    var rest := "." + fs + tail;
    assert ds + rest == t;
    DigitRunOfDigits(ds, rest);
    assert t[..|ds|] == ds && t[|ds|..] == rest;
    assert rest[1..] == fs + tail;
    DigitRunOfDigits(fs, tail);
    assert (fs + tail)[..|fs|] == fs && (fs + tail)[|fs|..] == tail;
  }

  /** `ds.fs` alone is its mantissa. */
  lemma UnsignedDecimalWithPoint(ds: string, fs: string)
    requires AllDigits(ds) && AllDigits(fs) && ds + fs != []
    ensures UnsignedDecimal(ds + "." + fs) == Finite(Mantissa(ds, fs))
  {
    PointLiteralParts(ds, fs, []);
    assert ds + "." + fs + [] == ds + "." + fs;
  }

  /** `ds.fs` followed by an exponent part is its mantissa scaled by the exponent. */
  lemma UnsignedDecimalWithPointExponent(ds: string, fs: string, tail: string, e: int)
    requires AllDigits(ds) && AllDigits(fs) && ds + fs != []
    requires tail != [] && !IsDigit(tail[0]) && ExponentPart(tail) == Some(e)
    ensures UnsignedDecimal(ds + "." + fs + tail) == Finite(TimesPow10(Mantissa(ds, fs), e))
  {
    PointLiteralParts(ds, fs, tail);
    var t := ds + "." + fs + tail;
    var k := DigitRun(t);
    var fraction := t[k..][1..];
    assert DigitsValue(t[..k]) == DigitsValue(ds);
    assert DigitsValue(fraction[..|fs|]) == DigitsValue(fs);
  }

  /** A literal without a decimal point, `ds`, followed by an exponent part `tail`. */
  lemma UnsignedDecimalWithoutPoint(ds: string, tail: string)
    requires ds != [] && AllDigits(ds)
    requires tail != [] && tail[0] == 'e' && ExponentPart(tail).Some?
    ensures UnsignedDecimal(ds + tail) == Finite(TimesPow10(DigitsValue(ds) as real, ExponentPart(tail).value))
  {
    var t := ds + tail;
    DigitRunOfDigits(ds, tail);
    var k := DigitRun(t);
    assert k == |ds|;
    assert t[..k] == ds && t[k..] == tail;
    assert tail[0..] == tail;
    NoFraction(DigitsValue(ds));
  }

  /** `Number("10.5")` and the like: the integer part plus the fraction digits over `10 ** |fs|`. */
  lemma ToNumberOfDecimal(ds: string, fs: string)
    requires AllDigits(ds) && AllDigits(fs) && ds + fs != []
    ensures ToNumber(ds + "." + fs) == Finite(Mantissa(ds, fs))
  {
    var t := ds + "." + fs;
    UnsignedDecimalWithPoint(ds, fs);
    assert t[0] == (if ds != [] then ds[0] else '.');
    assert t[|t| - 1] == (if fs != [] then fs[|fs| - 1] else '.');
    ToNumberOfUnsigned(t);
  }

  /** `Number("1.25e3")`, `Number("5.e-1")`: the decimal mantissa scaled by the signed exponent. */
  lemma ToNumberOfDecimalExponent(ds: string, fs: string, negative: bool, es: string)
    requires AllDigits(ds) && AllDigits(fs) && ds + fs != []
    requires es != [] && AllDigits(es)
    ensures ToNumber(ds + "." + fs + "e" + ExponentSign(negative) + es)
         == Finite(TimesPow10(Mantissa(ds, fs), SignedExponent(negative, es)))
  {
    var tail := "e" + ExponentSign(negative) + es;
    var t := ds + "." + fs + tail;
    assert t == ds + "." + fs + "e" + ExponentSign(negative) + es;
    ExponentPartOf(negative, es);
    UnsignedDecimalWithPointExponent(ds, fs, tail, SignedExponent(negative, es));
    assert t[0] == (if ds != [] then ds[0] else '.');
    assert t[|t| - 1] == es[|es| - 1];
    ToNumberOfUnsigned(t);
  }

  /** `Number("1e3")`, `Number("25e-2")`: the integer scaled by the signed exponent. */
  lemma ToNumberOfIntegerExponent(ds: string, negative: bool, es: string)
    requires ds != [] && AllDigits(ds)
    requires es != [] && AllDigits(es)
    ensures ToNumber(ds + "e" + ExponentSign(negative) + es)
         == Finite(TimesPow10(DigitsValue(ds) as real, SignedExponent(negative, es)))
  {
    var tail := "e" + ExponentSign(negative) + es;
    var t := ds + tail;
    assert t == ds + "e" + ExponentSign(negative) + es;
    ExponentPartOf(negative, es);
    UnsignedDecimalWithoutPoint(ds, tail);
    assert t[0] == ds[0];
    assert t[|t| - 1] == es[|es| - 1];
    ToNumberOfUnsigned(t);
  }

  /** A mantissa without fraction digits is its integer part. */
  lemma NoFraction(v: nat)
    ensures v as real + TimesPow10(DigitsValue([]) as real, -0) == v as real
  {
    assert DigitsValue([]) == 0;
  }

  /** One more power of ten is one more factor of ten, for negative exponents as well. */
  lemma TimesPow10Step(x: real, e: int)
    ensures TimesPow10(x, e + 1) == 10.0 * TimesPow10(x, e)
  {
  }

  /** Scaling twice adds the exponents. */
  lemma {:induction false} TimesPow10Add(x: real, e: int, f: nat)
    ensures TimesPow10(TimesPow10(x, e), f) == TimesPow10(x, e + f)
  {
    if f > 0 {
      TimesPow10Add(x, e, f - 1);
      TimesPow10Step(x, e + f - 1);
    }
  }

  /** Scaling up distributes over a sum. */
  lemma {:induction false} TimesPow10Sum(a: real, b: real, e: nat)
    ensures TimesPow10(a + b, e) == TimesPow10(a, e) + TimesPow10(b, e)
  {
    if e > 0 {
      TimesPow10Sum(a, b, e - 1);
    }
  }

  /** Scaling the mantissa of `ds.fs` up by its fraction length gives the integer the digits spell together. */
  lemma MantissaTimesPow10(ds: string, fs: string)
    requires AllDigits(ds) && AllDigits(fs)
    ensures TimesPow10(Mantissa(ds, fs), |fs|) == (DigitsValue(ds) * Pow10(|fs|) + DigitsValue(fs)) as real
  {
    var n := |fs|;
    TimesPow10Sum(DigitsValue(ds) as real, TimesPow10(DigitsValue(fs) as real, -n), n);
    TimesPow10Add(DigitsValue(fs) as real, -n, n);
    TimesPow10OfInteger(DigitsValue(ds), n);
  }

  /** The base units `ds.fs` stands for at `decimals` places: its digits as one integer, padded with zeros. */
  function DecimalUnits(ds: string, fs: string, decimals: nat): int
    requires AllDigits(ds) && AllDigits(fs) && |fs| <= decimals
  {
    (DigitsValue(ds) * Pow10(|fs|) + DigitsValue(fs)) * Pow10(decimals - |fs|)
  }

  /** With no more fraction digits than places, scaling `ds.fs` up gives exactly `DecimalUnits`. */
  lemma MantissaScaled(ds: string, fs: string, decimals: nat)
    requires AllDigits(ds) && AllDigits(fs) && |fs| <= decimals
    ensures TimesPow10(Mantissa(ds, fs), decimals) == DecimalUnits(ds, fs, decimals) as real
  {
    var n := |fs|;
    TimesPow10Add(Mantissa(ds, fs), n, decimals - n);
    MantissaTimesPow10(ds, fs);
    TimesPow10OfInteger(DigitsValue(ds) * Pow10(n) + DigitsValue(fs), decimals - n);
  }

  /** Scaling keeps the sign. */
  lemma {:induction false} TimesPow10Sign(x: real, e: int)
    ensures x >= 0.0 ==> TimesPow10(x, e) >= 0.0
    ensures x > 0.0 ==> TimesPow10(x, e) > 0.0
    decreases if e < 0 then -e else e
  {
    if e > 0 {
      TimesPow10Sign(x, e - 1);
    } else if e < 0 {
      TimesPow10Sign(x, e + 1);
    }
  }

  /** An integer scaled by a non-negative power of ten is the integer `a * 10 ** d`. */
  lemma {:induction false} TimesPow10OfInteger(a: int, d: nat)
    ensures TimesPow10(a as real, d) == (a * Pow10(d)) as real
  {
    if d > 0 {
      TimesPow10OfInteger(a, d - 1);
      assert a * Pow10(d) == 10 * (a * Pow10(d - 1));
    }
  }

  /** `BigInt` of a number holding an integer is that integer. */
  lemma IntegerToBigInt(x: real, n: int)
    requires x == n as real
    ensures NumberToBigInt(Finite(x)) == Some(n)
  {
    assert x.Floor == n;
  }

  /** Whatever `BigInt` accepts, `Number` reads as the same value. */
  lemma BigIntAgreesWithNumber(s: string)
    ensures StringToBigInt(s).Some? ==> ToNumber(s) == Finite(StringToBigInt(s).value as real)
  {
    var t := Trim(s);
    if t != [] && StringToBigInt(s).Some? {
      var digits := if t[0] == '-' || t[0] == '+' then t[1..] else t;
      UnsignedDecimalOfDigits(digits);
    }
  }

  /** `BigInt` of a plain digit string is the integer it spells. */
  lemma StringToBigIntOfDigits(ds: string)
    requires ds != [] && AllDigits(ds)
    ensures StringToBigInt(ds) == Some(DigitsValue(ds))
  {
    assert IsDigit(ds[0]) && IsDigit(ds[|ds| - 1]);
    assert TrimStart(ds) == ds;
    assert TrimEnd(ds) == ds;
  }
}
