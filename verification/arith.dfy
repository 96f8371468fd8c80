/**
 * Facts about multiplication, division and remainder by a positive number,
 * stated with the products as terms so that the proofs using them stay linear.
 */
module Arith {

  lemma MulDistrib(x: int, y: int, b: int)
    ensures x * b - y * b == (x - y) * b
  {
  }

  lemma {:induction false} MulAtLeast(d: nat, b: nat)
    requires d >= 1 && b > 0
    ensures d * b >= b
    decreases d
  {
    if d > 1 {
      MulAtLeast(d - 1, b);
      assert d * b == (d - 1) * b + b;
    }
  }

  /** A non-zero multiple of a positive `b` is at least `b` away from zero. */
  lemma MulBound(d: int, b: int)
    requires b > 0
    ensures d >= 1 ==> d * b >= b
    ensures d <= -1 ==> d * b <= -b
  {
    if d >= 1 {
      MulAtLeast(d, b);
    } else if d <= -1 {
      MulAtLeast(-d, b);
      assert (-d) * b == -(d * b);
    }
  }

  /** At most one multiple of `b` lies in each window `[q * b, q * b + b)`. */
  lemma DivUnique(a: int, b: int, q1: int, q2: int)
    requires b > 0
    requires q1 * b <= a < q1 * b + b
    requires q2 * b <= a < q2 * b + b
    ensures q1 == q2
  {
    MulDistrib(q2, q1, b);
    MulBound(q2 - q1, b);
  }

  /** The quotient of a natural number brackets it. */
  lemma DivBracket(a: nat, b: nat)
    requires b > 0
    ensures 0 <= a / b && (a / b) * b <= a < (a / b) * b + b
  {
    assert a == (a / b) * b + a % b;
  }

  /** A number in the window `[q * b, q * b + b)` has quotient `q` and remainder `k - q * b`. */
  lemma DivModOfBracket(k: int, b: int, q: int)
    requires b > 0 && q * b <= k < q * b + b
    ensures k / b == q && k % b == k - q * b
  {
    assert k == (k / b) * b + k % b;
    DivUnique(k, b, k / b, q);
  }

  lemma MulNonNegative(a: nat, b: nat)
    ensures a * b >= 0
  {
    if a >= 1 && b >= 1 {
      MulAtLeast(a, b);
    }
  }
}
