/** Machine-level numeric conventions shared by the firmware model:
    fixed-width integer ranges, C++ truncating conversions and division,
    and the `constrain` clamp used throughout the controllers. */
module Numeric {

  datatype Option<+T> = None | Some(value: T)

  /** Ranges of the C++ fixed-width types the firmware stores values in. */
  type u8 = x: int | 0 <= x < 0x100
  type u16 = x: int | 0 <= x < 0x1_0000
  type i16 = x: int | -0x8000 <= x < 0x8000
  type u32 = x: int | 0 <= x < 0x1_0000_0000
  type i32 = x: int | -0x8000_0000 <= x < 0x8000_0000

  const U16_MAX: int := 0xFFFF

  function Abs(x: int): nat { if x < 0 then -x else x }

  function AbsReal(x: real): (r: real)
    ensures r >= 0.0 && (r == x || r == -x)
  {
    if x < 0.0 then -x else x
  }

  function MaxReal(a: real, b: real): real { if a < b then b else a }
  function MinReal(a: real, b: real): real { if a < b then a else b }

  /** A float-to-integer `static_cast`: C++ drops the fractional part,
      rounding toward zero (Dafny's `.Floor` rounds toward minus infinity). */
  function Trunc(x: real): (r: int)
    ensures x >= 0.0 ==> 0 <= r && r as real <= x < r as real + 1.0
    ensures x < 0.0 ==> r <= 0 && r as real - 1.0 < x <= r as real
  {
    if x >= 0.0 then x.Floor else -((-x).Floor)
  }

  /** C++ integer division `a / b` for a positive divisor: the quotient is
      rounded toward zero, unlike Dafny's Euclidean `/`. */
  function TruncDiv(a: int, b: int): (q: int)
    requires b > 0
    ensures a >= 0 ==> 0 <= q && q * b <= a < (q + 1) * b
    ensures a < 0 ==> q <= 0 && (q - 1) * b < a <= q * b
  {
    if a >= 0 then DivBracket(a, b); a / b
    else DivBracket(-a, b); -((-a) / b)
  }

  /** Euclidean division of a natural number brackets it between multiples. */
  lemma DivBracket(a: nat, b: int)
    requires b > 0
    ensures 0 <= a / b && (a / b) * b <= a < (a / b + 1) * b
  {
    var q := a / b;
    var r := a % b;
    assert a == q * b + r && 0 <= r < b;
    assert (q + 1) * b == q * b + b;
  }

  /** Truncating integer division agrees with truncating the exact quotient. */
  lemma {:induction false} TruncDivIsTruncOfQuotient(a: int, b: int)
    requires b > 0
    ensures TruncDiv(a, b) == Trunc(a as real / b as real)
  {
    if a >= 0 {
      var q := a / b;
      QuotientBounds(a, b, q);
      FloorIs(a as real / b as real, q);
    } else {
      var q := (-a) / b;
      QuotientBounds(-a, b, q);
      assert -(a as real / b as real) == (-a) as real / b as real;
      FloorIs(-(a as real / b as real), q);
    }
  }

  /** An integer quotient bracket carries over to the exact real quotient. */
  lemma QuotientBounds(a: int, b: int, q: int)
    requires b > 0 && q * b <= a < (q + 1) * b
    ensures q as real <= a as real / b as real < q as real + 1.0
  {
    CastMul(q, b);
    CastMul(q + 1, b);
    DivLower(a as real, b as real, q as real);
    DivUpper(a as real, b as real, (q + 1) as real);
  }

  lemma CastMul(m: int, n: int)
    ensures (m * n) as real == m as real * n as real
  {
  }

  lemma DivLower(x: real, y: real, q: real)
    requires y > 0.0 && q * y <= x
    ensures q <= x / y
  {
  }

  lemma DivUpper(x: real, y: real, q: real)
    requires y > 0.0 && x < q * y
    ensures x / y < q
  {
  }

  lemma FloorIs(x: real, k: int)
    requires k as real <= x < k as real + 1.0
    ensures x.Floor == k
  {
  }

  /** The `constrain(value, min, max)` template of include/LEDController.h
      over integers: tests the lower bound first, then the upper bound,
      otherwise returns the value.  `ConstrainReal` below is the separate
      float `MotorController::constrain`, the same clamp over reals; Dafny
      has no generic ordered type, so each carries its own lemmas. */
  function Constrain(value: int, lo: int, hi: int): (r: int)
    ensures value < lo ==> r == lo
    ensures lo <= value && hi < value ==> r == hi
    ensures lo <= value <= hi ==> r == value
  {
    if value < lo then lo else if value > hi then hi else value
  }

  /** `MotorController::constrain` on `float`: the clamp of `Constrain`
      (same test order) over the firmware's float values. */
  function ConstrainReal(value: real, lo: real, hi: real): (r: real)
    ensures value < lo ==> r == lo
    ensures lo <= value && hi < value ==> r == hi
    ensures lo <= value <= hi ==> r == value
  {
    if value < lo then lo else if value > hi then hi else value
  }

  lemma ConstrainInRange(value: int, lo: int, hi: int)
    requires lo <= hi
    ensures lo <= Constrain(value, lo, hi) <= hi
  {
  }

  lemma ConstrainIdempotent(value: int, lo: int, hi: int)
    requires lo <= hi
    ensures Constrain(Constrain(value, lo, hi), lo, hi) == Constrain(value, lo, hi)
  {
  }

  lemma ConstrainMonotone(v1: int, v2: int, lo: int, hi: int)
    requires v1 <= v2 && lo <= hi
    ensures Constrain(v1, lo, hi) <= Constrain(v2, lo, hi)
  {
  }

  /** When the bounds are ordered, `constrain` is `max(lo, min(hi, v))`. */
  lemma ConstrainIsMaxOfMin(value: int, lo: int, hi: int)
    requires lo <= hi
    ensures Constrain(value, lo, hi) == Max(lo, Min(hi, value))
  {
  }

  function Max(a: int, b: int): int { if a < b then b else a }
  function Min(a: int, b: int): int { if a < b then a else b }

  lemma ConstrainRealInRange(value: real, lo: real, hi: real)
    requires lo <= hi
    ensures lo <= ConstrainReal(value, lo, hi) <= hi
    ensures ConstrainReal(ConstrainReal(value, lo, hi), lo, hi) == ConstrainReal(value, lo, hi)
    ensures ConstrainReal(value, lo, hi) == MaxReal(lo, MinReal(hi, value))
  {
  }
}
