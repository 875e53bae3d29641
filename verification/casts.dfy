/** The two places where C# integer semantics differ from Dafny's:
    the `(int)` cast of a double, which truncates toward zero, and `/` on
    two `int`s, which also truncates toward zero (Dafny's `/` is Euclidean).
    Both are modelled on unbounded integers: 32-bit overflow is not. */
module Casts {

  function Abs(a: int): nat { if a < 0 then -a else a }

  /** `(int)r` in C#: the integer part of `r`, rounding toward zero. */
  function Trunc(r: real): (t: int)
    ensures r >= 0.0 ==> t as real <= r < t as real + 1.0
    ensures r < 0.0 ==> t as real - 1.0 < r <= t as real
  {
    if r >= 0.0 then r.Floor else -((-r).Floor)
  }

  /** Truncation never moves a larger value below a smaller one. */
  lemma TruncMonotone(r: real, s: real)
    requires r <= s
    ensures Trunc(r) <= Trunc(s)
  {
    if r >= 0.0 {
      assert Trunc(r) as real <= r <= s < Trunc(s) as real + 1.0;
    } else if s < 0.0 {
      assert Trunc(r) as real - 1.0 < r <= s <= Trunc(s) as real;
    }
  }

  /** `a / b` on C# `int`s: the quotient rounded toward zero, so that the
      remainder `a - q * b` has the sign of the dividend. */
  function TruncDiv(a: int, b: int): (q: int)
    requires b != 0
    ensures a >= 0 ==> 0 <= a - q * b < Abs(b)
    ensures a < 0 ==> -(Abs(b) as int) < a - q * b <= 0
  {
    if a >= 0 then
      (if b > 0 then EuclidDiv(a, b) else -(EuclidDiv(a, -b) as int))
    else
      (if b > 0 then -(EuclidDiv(-a, b) as int) else EuclidDiv(-a, -b))
  }

  /** Quotient of a natural number by a positive divisor. */
  function EuclidDiv(a: nat, b: int): (q: nat)
    requires b > 0
    ensures q * b <= a < q * b + b
  {
    a / b
  }

  /** The dispatch test `pointsPerPixelColumn > 1` compares the C# integer
      quotient with 1: for a positive divisor it holds exactly when the
      dividend is at least twice the divisor. */
  lemma TruncDivExceedsOne(c: int, w: int)
    requires w > 0
    ensures TruncDiv(c, w) > 1 <==> c >= 2 * w
  {
    var q := TruncDiv(c, w);
    if q > 1 {
      assert q * w >= 2 * w by { MulMonotone(2, q, w); }
    } else {
      assert q * w <= w by { MulMonotone(q, 1, w); }
    }
  }

  /** For a negative divisor the same test holds exactly when the dividend
      is at most twice the divisor. */
  lemma TruncDivExceedsOneNegative(c: int, w: int)
    requires w < 0
    ensures TruncDiv(c, w) > 1 <==> c <= 2 * w
  {
    var q := TruncDiv(c, w);
    if q > 1 {
      assert q * w <= 2 * w by { MulMonotone(2, q, -w); }
    } else {
      assert q * w >= w by { MulMonotone(q, 1, -w); }
    }
  }

  lemma MulMonotone(a: int, b: int, m: nat)
    requires a <= b
    ensures a * m <= b * m
  {
  }
}
