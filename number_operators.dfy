/**
 * The SQL NUMBER operators that have exact semantics: the casts to the integer types,
 * the error paths and result scale of division and modulus, and the cast to varchar.
 * A NUMBER is handled as a `java.math.BigDecimal`.
 */
module NumberOperators {
  import opened Errors
  import opened JavaNumbers

  /** A `java.math.BigDecimal`: the number `unscaled * 10^(-scale)`; the scale may be negative. */
  datatype BigDecimal = BigDecimal(unscaled: int, scale: int)

  /**
   * `BigDecimal.precision()`: the number of digits of the unscaled value (1 for zero), the
   * least `r` with `|unscaled| < 10^r`.
   */
  function Precision(x: BigDecimal): (r: nat)
    ensures r >= 1
    ensures Abs(x.unscaled) < Pow10(r)
    ensures r > 1 ==> Pow10(r - 1) <= Abs(x.unscaled)
  {
    NumDigitsBounds(Abs(x.unscaled));
    NumDigits(Abs(x.unscaled))
  }

  /**
   * `n / d` rounded to an integer with `RoundingMode.HALF_UP`: to the nearest integer,
   * and away from zero on a tie. The mode is symmetric, so the magnitude is rounded and
   * the sign put back.
   */
  function RoundHalfUp(n: int, d: int): int
    requires d >= 1
  {
    var m: int := HalfUpMagnitude(Abs(n), d);
    if n < 0 then -m else m
  }

  function HalfUpMagnitude(a: nat, d: int): nat
    requires d >= 1
  {
    if 2 * (a % d) >= d then a / d + 1 else a / d
  }

  lemma HalfUpMagnitudeSpec(a: nat, d: int)
    requires d >= 1
    ensures 2 * Abs(a - HalfUpMagnitude(a, d) * d) <= d
    ensures 2 * Abs(a - HalfUpMagnitude(a, d) * d) == d ==> HalfUpMagnitude(a, d) * d > a
  {
    var q, r := a / d, a % d;
    assert a == q * d + r;
    if 2 * r >= d {
      assert HalfUpMagnitude(a, d) * d == q * d + d;
    } else {
      assert HalfUpMagnitude(a, d) * d == q * d;
    }
  }

  /** HALF_UP is at most half a unit away from the exact quotient, and a tie goes away from zero. */
  lemma RoundHalfUpSpec(n: int, d: int)
    requires d >= 1
    ensures 2 * Abs(n - RoundHalfUp(n, d) * d) <= d
    ensures 2 * Abs(n - RoundHalfUp(n, d) * d) == d ==> Abs(RoundHalfUp(n, d) * d) > Abs(n)
    ensures n >= 0 ==> RoundHalfUp(n, d) >= 0
    ensures n <= 0 ==> RoundHalfUp(n, d) <= 0
  {
    var m := HalfUpMagnitude(Abs(n), d);
    HalfUpMagnitudeSpec(Abs(n), d);
    if n < 0 {
      assert RoundHalfUp(n, d) * d == -(m * d);
      assert n - RoundHalfUp(n, d) * d == -(Abs(n) - m * d);
    }
  }

  /** No integer is closer to `n / d` than its HALF_UP rounding. */
  lemma RoundHalfUpNearest(n: int, d: int, k: int)
    requires d >= 1
    ensures Abs(n - RoundHalfUp(n, d) * d) <= Abs(n - k * d)
  {
    var q := RoundHalfUp(n, d);
    RoundHalfUpSpec(n, d);
    if k != q {
      FarMultiple(k - q, d);
      assert k * d - q * d == (k - q) * d;
    }
  }

  /** Distinct multiples of `d` are at least `d` apart. */
  lemma FarMultiple(a: int, d: int)
    requires a != 0 && d >= 1
    ensures Abs(a * d) >= d
  {
    if a > 0 {
      MulAtLeast(a, d);
    } else {
      MulAtLeast(-a, d);
    }
  }

  lemma MulAtLeast(a: int, d: int)
    requires a >= 1 && d >= 1
    ensures a * d >= d
  {
  }

  /** `setScale(0, RoundingMode.HALF_UP)`: exact for a non-positive scale, HALF_UP otherwise. */
  function ToIntegral(x: BigDecimal): (r: int)
    ensures x.scale <= 0 ==> r == x.unscaled * Pow10(-x.scale)
    ensures x.scale > 0 ==> 2 * Abs(x.unscaled - r * Pow10(x.scale)) <= Pow10(x.scale)
    ensures x.scale > 0 && 2 * Abs(x.unscaled - r * Pow10(x.scale)) == Pow10(x.scale) ==>
              Abs(r * Pow10(x.scale)) > Abs(x.unscaled)
    ensures x.unscaled >= 0 ==> r >= 0
    ensures x.unscaled <= 0 ==> r <= 0
  {
    if x.scale <= 0 then x.unscaled * Pow10(-x.scale)
    else
      RoundHalfUpSpec(x.unscaled, Pow10(x.scale));
      RoundHalfUp(x.unscaled, Pow10(x.scale))
  }

  /** `longValueExact()`: the value, or an `ArithmeticException` (rethrown as out of range) outside 64 bits. */
  function LongValueExact(n: int): Result<int>
  {
    if IsLong(n) then Ok(n) else Err(TrinoException(NUMERIC_VALUE_OUT_OF_RANGE))
  }

  function CastToTinyint(value: BigDecimal): (r: Result<int>)
    ensures r.Ok? <==> BYTE_MIN <= ToIntegral(value) <= BYTE_MAX
    ensures r.Ok? ==> r.value == ToIntegral(value)
    ensures r.Err? ==> r.error == TrinoException(NUMERIC_VALUE_OUT_OF_RANGE)
  {
    match LongValueExact(ToIntegral(value))
    case Err(e) => Err(e)
    case Ok(n) => if BYTE_MIN <= n <= BYTE_MAX then Ok(n) else Err(TrinoException(NUMERIC_VALUE_OUT_OF_RANGE))
  }

  function CastToSmallint(value: BigDecimal): (r: Result<int>)
    ensures r.Ok? <==> SHORT_MIN <= ToIntegral(value) <= SHORT_MAX
    ensures r.Ok? ==> r.value == ToIntegral(value)
    ensures r.Err? ==> r.error == TrinoException(NUMERIC_VALUE_OUT_OF_RANGE)
  {
    match LongValueExact(ToIntegral(value))
    case Err(e) => Err(e)
    case Ok(n) => if SHORT_MIN <= n <= SHORT_MAX then Ok(n) else Err(TrinoException(NUMERIC_VALUE_OUT_OF_RANGE))
  }

  function CastToInteger(value: BigDecimal): (r: Result<int>)
    ensures r.Ok? <==> INT_MIN <= ToIntegral(value) <= INT_MAX
    ensures r.Ok? ==> r.value == ToIntegral(value)
    ensures r.Err? ==> r.error == TrinoException(NUMERIC_VALUE_OUT_OF_RANGE)
  {
    match LongValueExact(ToIntegral(value))
    case Err(e) => Err(e)
    case Ok(n) => if INT_MIN <= n <= INT_MAX then Ok(n) else Err(TrinoException(NUMERIC_VALUE_OUT_OF_RANGE))
  }

  function CastToBigint(value: BigDecimal): (r: Result<int>)
    ensures r.Ok? <==> LONG_MIN <= ToIntegral(value) <= LONG_MAX
    ensures r.Ok? ==> r.value == ToIntegral(value)
    ensures r.Err? ==> r.error == TrinoException(NUMERIC_VALUE_OUT_OF_RANGE)
  {
    match LongValueExact(ToIntegral(value))
    case Err(e) => Err(e)
    case Ok(n) => Ok(n)
  }

  /** A value that fits a narrower integer type casts to every wider one, to the same integer. */
  lemma CastWidening(value: BigDecimal)
    ensures CastToTinyint(value).Ok? ==> CastToSmallint(value) == CastToTinyint(value)
    ensures CastToSmallint(value).Ok? ==> CastToInteger(value) == CastToSmallint(value)
    ensures CastToInteger(value).Ok? ==> CastToBigint(value) == CastToInteger(value)
  {
  }

  /** Boundary cases of HALF_UP: 127.5 and -128.5 leave the tinyint range, -128.4 and 127.4 stay in it. */
  lemma TinyintBoundaries()
    ensures CastToTinyint(BigDecimal(1275, 1)) == Err(TrinoException(NUMERIC_VALUE_OUT_OF_RANGE))
    ensures CastToTinyint(BigDecimal(1274, 1)) == Ok(127)
    ensures CastToTinyint(BigDecimal(-1285, 1)) == Err(TrinoException(NUMERIC_VALUE_OUT_OF_RANGE))
    ensures CastToTinyint(BigDecimal(-1284, 1)) == Ok(-128)
    ensures CastToTinyint(BigDecimal(25, 1)) == Ok(3) && CastToTinyint(BigDecimal(-25, 1)) == Ok(-3)
  {
  }

  /** The scale of a quotient: the dividend's scale plus the divisor's precision plus one, at least 6, in int arithmetic. */
  function DivideScale(dividend: BigDecimal, divisor: BigDecimal): int
  {
    var s := ToInt(dividend.scale + Precision(divisor) + 1);
    if s > 6 then s else 6
  }

  /**
   * The quotient `dividend / divisor * 10^resultScale` as a fraction `n / d` of integers
   * with a positive denominator.
   */
  function QuotientFraction(dividend: BigDecimal, divisor: BigDecimal, resultScale: int): (f: (int, int))
    requires divisor.unscaled != 0
    ensures f.1 >= 1
  {
    var sign := if divisor.unscaled < 0 then -1 else 1;
    var e := resultScale - dividend.scale + divisor.scale;
    if e >= 0 then (sign * dividend.unscaled * Pow10(e), Abs(divisor.unscaled))
    else (sign * dividend.unscaled, Abs(divisor.unscaled) * Pow10(-e))
  }

  /**
   * `divide`: a zero divisor is a division by zero; otherwise the quotient at
   * `DivideScale`, rounded HALF_UP.
   */
  function Divide(dividend: BigDecimal, divisor: BigDecimal): (r: Result<BigDecimal>)
    ensures r.Err? <==> divisor.unscaled == 0
    ensures r.Err? ==> r.error == TrinoException(DIVISION_BY_ZERO)
    ensures r.Ok? ==> r.value.scale == DivideScale(dividend, divisor) && r.value.scale >= 6
    ensures r.Ok? ==>
              var (n, d) := QuotientFraction(dividend, divisor, r.value.scale);
              && 2 * Abs(n - r.value.unscaled * d) <= d
              && (2 * Abs(n - r.value.unscaled * d) == d ==> Abs(r.value.unscaled * d) > Abs(n))
  {
    if divisor.unscaled == 0 then Err(TrinoException(DIVISION_BY_ZERO))
    else
      var resultScale := DivideScale(dividend, divisor);
      var (n, d) := QuotientFraction(dividend, divisor, resultScale);
      RoundHalfUpSpec(n, d);
      Ok(BigDecimal(RoundHalfUp(n, d), resultScale))
  }

  /** `modulus`: a zero divisor is a division by zero; otherwise the remainder of the quotient truncated toward zero. */
  function Modulus(dividend: BigDecimal, divisor: BigDecimal): (r: Result<BigDecimal>)
    ensures r.Err? <==> divisor.unscaled == 0
    ensures r.Err? ==> r.error == TrinoException(DIVISION_BY_ZERO)
    ensures r.Ok? ==>
              var s := if dividend.scale > divisor.scale then dividend.scale else divisor.scale;
              var a := dividend.unscaled * Pow10(s - dividend.scale);
              var b := divisor.unscaled * Pow10(s - divisor.scale);
              && r.value.scale == s
              && a == TruncDiv(a, b) * b + r.value.unscaled
              && Abs(r.value.unscaled) < Abs(b)
              && (a >= 0 ==> r.value.unscaled >= 0)
              && (a <= 0 ==> r.value.unscaled <= 0)
  {
    if divisor.unscaled == 0 then Err(TrinoException(DIVISION_BY_ZERO))
    else
      var s := if dividend.scale > divisor.scale then dividend.scale else divisor.scale;
      var a := dividend.unscaled * Pow10(s - dividend.scale);
      var b := divisor.unscaled * Pow10(s - divisor.scale);
      TruncRemBounds(a, b);
      Ok(BigDecimal(TruncRem(a, b), s))
  }

  /**
   * `castToVarchar(x, value)`: the decimal's text, `render(value)`, when it has at most
   * `x` characters; otherwise an invalid cast.
   */
  function CastToVarchar(x: int, value: BigDecimal, render: BigDecimal -> string): (r: Result<string>)
    ensures r.Ok? <==> |render(value)| <= x
    ensures r.Ok? ==> r.value == render(value)
    ensures r.Err? ==> r.error == TrinoException(INVALID_CAST_ARGUMENT)
  {
    var text := render(value);
    if |text| <= x then Ok(text) else Err(TrinoException(INVALID_CAST_ARGUMENT))
  }

  /** A cast that fits `varchar(x)` fits every wider varchar, with the same text. */
  lemma CastToVarcharMonotonic(x: int, y: int, value: BigDecimal, render: BigDecimal -> string)
    requires x <= y && CastToVarchar(x, value, render).Ok?
    ensures CastToVarchar(y, value, render) == CastToVarchar(x, value, render)
  {
  }
}
