/** Java's fixed-width integers and the decimal helpers shared by the numeric models. */
module JavaNumbers {

  const BYTE_MIN: int := -0x80
  const BYTE_MAX: int := 0x7f
  const SHORT_MIN: int := -0x8000
  const SHORT_MAX: int := 0x7fff
  const INT_MIN: int := -0x8000_0000
  const INT_MAX: int := 0x7fff_ffff
  const LONG_MIN: int := -0x8000_0000_0000_0000
  const LONG_MAX: int := 0x7fff_ffff_ffff_ffff

  predicate IsInt(x: int) { INT_MIN <= x <= INT_MAX }

  predicate IsLong(x: int) { LONG_MIN <= x <= LONG_MAX }

  /**
   * Java's narrowing to `int` (`Long.intValue()`, and the result of `int` arithmetic):
   * keep the low 32 bits, read them as two's complement.
   */
  function ToInt(x: int): (r: int)
    ensures IsInt(r)
    ensures IsInt(x) ==> r == x
    ensures (x - r) % 0x1_0000_0000 == 0
  {
    (x - INT_MIN) % 0x1_0000_0000 + INT_MIN
  }

  function Abs(x: int): nat { if x < 0 then -x else x }

  function Pow10(k: nat): (r: nat)
    ensures r >= 1
  {
    if k == 0 then 1 else 10 * Pow10(k - 1)
  }

  /** The number of decimal digits of `n`; 1 for 0, as `BigDecimal.precision()` counts it. */
  function NumDigits(n: nat): (r: nat)
    ensures r >= 1
  {
    if n < 10 then 1 else 1 + NumDigits(n / 10)
  }

  /** `NumDigits(n)` is the least `k` with `n < 10^k`. */
  lemma {:induction false} NumDigitsBounds(n: nat)
    ensures n < Pow10(NumDigits(n))
    ensures NumDigits(n) > 1 ==> Pow10(NumDigits(n) - 1) <= n
  {
    if n >= 10 {
      NumDigitsBounds(n / 10);
    }
  }

  /** `NumDigits(n)` is `k` exactly when `n` lies in `[10^(k-1), 10^k)`. */
  lemma {:induction false} NumDigitsOf(n: nat, k: nat)
    requires k >= 1 && Pow10(k - 1) <= n < Pow10(k)
    ensures NumDigits(n) == k
  {
    if k > 1 {
      assert Pow10(k - 2) <= n / 10 < Pow10(k - 1);
      NumDigitsOf(n / 10, k - 1);
    }
  }

  lemma {:induction false} Pow10Add(a: nat, b: nat)
    ensures Pow10(a + b) == Pow10(a) * Pow10(b)
  {
    if a > 0 {
      Pow10Add(a - 1, b);
    }
  }

  /**
   * Java's `/` on integers: the quotient truncated toward zero
   * (Dafny's own `/` is Euclidean).
   */
  function TruncDiv(a: int, b: int): int
    requires b != 0
  {
    if (a < 0) == (b < 0) then Abs(a) / Abs(b) else -(Abs(a) / Abs(b))
  }

  /** Java's `%` on integers: the remainder of `TruncDiv`, with the sign of the dividend. */
  function TruncRem(a: int, b: int): int
    requires b != 0
  {
    a - TruncDiv(a, b) * b
  }

  /** The remainder is smaller than the divisor and never has the opposite sign of the dividend. */
  lemma TruncRemBounds(a: int, b: int)
    requires b != 0
    ensures a == TruncDiv(a, b) * b + TruncRem(a, b)
    ensures Abs(TruncRem(a, b)) < Abs(b)
    ensures a >= 0 ==> TruncRem(a, b) >= 0
    ensures a <= 0 ==> TruncRem(a, b) <= 0
  {
    var q, m := Abs(a) / Abs(b), Abs(a) % Abs(b);
    assert Abs(a) == q * Abs(b) + m;
    if (a < 0) == (b < 0) {
      assert TruncDiv(a, b) * b == q * b;
      if a >= 0 {
        assert q * b == q * Abs(b);
        assert TruncRem(a, b) == m;
      } else {
        assert q * b == -(q * Abs(b));
        assert TruncRem(a, b) == -m;
      }
    } else {
      assert TruncDiv(a, b) * b == -(q * b);
      if a >= 0 {
        assert -(q * b) == q * Abs(b);
        assert TruncRem(a, b) == m;
      } else {
        assert -(q * b) == -(q * Abs(b));
        assert TruncRem(a, b) == -m;
      }
    }
  }
}
