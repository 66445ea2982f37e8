/**
 * Dense real vectors, the stand-in for the one-dimensional numpy arrays the
 * methods manipulate, together with the two pieces of numerics the update
 * laws need: powers of two and an abstract square root.
 */
module Vectors {

  type Vec = seq<real>

  /** `np.zeros(n)`. */
  function Zeros(n: nat): (r: Vec)
    ensures |r| == n
    ensures forall i :: 0 <= i < n ==> r[i] == 0.0
  {
    seq(n, i => 0.0)
  }

  /** Componentwise `a + b`. */
  function Add(a: Vec, b: Vec): (r: Vec)
    requires |a| == |b|
    ensures |r| == |a|
    ensures forall i :: 0 <= i < |r| ==> r[i] == a[i] + b[i]
  {
    seq(|a|, i requires 0 <= i < |a| => a[i] + b[i])
  }

  /** Componentwise `a - b`. */
  function Sub(a: Vec, b: Vec): (r: Vec)
    requires |a| == |b|
    ensures |r| == |a|
    ensures forall i :: 0 <= i < |r| ==> r[i] == a[i] - b[i]
  {
    seq(|a|, i requires 0 <= i < |a| => a[i] - b[i])
  }

  /** `c * a` for a scalar `c`. */
  function Scale(c: real, a: Vec): (r: Vec)
    ensures |r| == |a|
    ensures forall i :: 0 <= i < |r| ==> r[i] == c * a[i]
  {
    seq(|a|, i requires 0 <= i < |a| => c * a[i])
  }

  /** `-a`. */
  function Neg(a: Vec): (r: Vec)
    ensures |r| == |a|
    ensures forall i :: 0 <= i < |r| ==> r[i] == -a[i]
  {
    seq(|a|, i requires 0 <= i < |a| => -a[i])
  }

  /** `wa * a + wb * b`, the shape of every averaging step. */
  function Combine(wa: real, a: Vec, wb: real, b: Vec): (r: Vec)
    requires |a| == |b|
    ensures |r| == |a|
    ensures forall i :: 0 <= i < |r| ==> r[i] == wa * a[i] + wb * b[i]
  {
    seq(|a|, i requires 0 <= i < |a| => wa * a[i] + wb * b[i])
  }

  /** `v - c` with the scalar `c` broadcast over every coordinate. */
  function ShiftDown(v: Vec, c: real): (r: Vec)
    ensures |r| == |v|
    ensures forall i :: 0 <= i < |r| ==> r[i] == v[i] - c
  {
    seq(|v|, i requires 0 <= i < |v| => v[i] - c)
  }

  /** Every coordinate of `v` lies in `[lo, hi]`. */
  predicate InBox(v: Vec, lo: real, hi: real) {
    forall i :: 0 <= i < |v| ==> lo <= v[i] <= hi
  }

  /** The product of two non-negative reals is non-negative. */
  lemma MulNonneg(x: real, y: real)
    requires x >= 0.0 && y >= 0.0
    ensures x * y >= 0.0
  {
  }

  /** A convex combination of two points of a box stays in the box. */
  lemma CombineInBox(wa: real, a: Vec, wb: real, b: Vec, lo: real, hi: real)
    requires |a| == |b| && 0.0 <= wa && 0.0 <= wb && wa + wb == 1.0
    requires InBox(a, lo, hi) && InBox(b, lo, hi)
    ensures InBox(Combine(wa, a, wb, b), lo, hi)
  {
    var r := Combine(wa, a, wb, b);
    forall i | 0 <= i < |r|
      ensures lo <= r[i] <= hi
    {
      MulNonneg(wa, a[i] - lo);
      MulNonneg(wb, b[i] - lo);
      MulNonneg(wa, hi - a[i]);
      MulNonneg(wb, hi - b[i]);
    }
  }

  /** `abs(x)`. */
  function Abs(x: real): (r: real)
    ensures r >= 0.0 && (r == x || r == -x)
  {
    if x < 0.0 then -x else x
  }

  /** `np.dot(a, b)`. */
  function Dot(a: Vec, b: Vec): real
    requires |a| == |b|
  {
    if |a| == 0 then 0.0 else a[0] * b[0] + Dot(a[1..], b[1..])
  }

  /** `np.linalg.norm(a, 2) ** 2`. */
  function NormSq(a: Vec): real {
    Dot(a, a)
  }

  /** `sum(a)`. */
  function Sum(a: Vec): real {
    if |a| == 0 then 0.0 else a[0] + Sum(a[1..])
  }

  /** Negating one argument negates the inner product. */
  lemma {:induction false} DotNegLeft(a: Vec, b: Vec)
    requires |a| == |b|
    ensures Dot(Neg(a), b) == -Dot(a, b)
  {
    if |a| > 0 {
      assert Neg(a)[1..] == Neg(a[1..]);
      DotNegLeft(a[1..], b[1..]);
    }
  }

  /** The inner product is linear in its second argument. */
  lemma {:induction false} DotSubRight(a: Vec, b: Vec, c: Vec)
    requires |a| == |b| == |c|
    ensures Dot(a, Sub(b, c)) == Dot(a, b) - Dot(a, c)
  {
    if |a| > 0 {
      assert Sub(b, c)[1..] == Sub(b[1..], c[1..]);
      DotSubRight(a[1..], b[1..], c[1..]);
    }
  }

  /** 2^n for a natural exponent. */
  function PowTwo(n: nat): (r: real)
    ensures r >= 1.0
  {
    if n == 0 then 1.0 else 2.0 * PowTwo(n - 1)
  }

  /** Python's `2 ** e` for an integer exponent; `2 ** -1 == 0.5`. */
  function Pow2(e: int): (r: real)
    ensures r > 0.0
  {
    if e >= 0 then PowTwo(e) else 1.0 / PowTwo(-e)
  }

  /** Raising the exponent by one doubles the power, on both sides of zero. */
  lemma Pow2Succ(e: int)
    ensures Pow2(e + 1) == 2.0 * Pow2(e)
  {
    if e < -1 {
      assert PowTwo(-e) == 2.0 * PowTwo(-e - 1);
    }
  }

  /**
   * What `np.sqrt` promises on non-negative arguments. The model never
   * computes a square root; it only uses these two facts.
   */
  ghost predicate IsSqrt(sqrt: real -> real) {
    forall x: real :: 0.0 <= x ==> 0.0 <= sqrt(x) && sqrt(x) * sqrt(x) == x
  }

  /** The square root is strictly increasing on the non-negative reals. */
  lemma SqrtStrictlyIncreasing(sqrt: real -> real, a: real, b: real)
    requires IsSqrt(sqrt)
    requires 0.0 <= a < b
    ensures 0.0 <= sqrt(a) < sqrt(b)
  {
    var ra, rb := sqrt(a), sqrt(b);
    assert 0.0 <= ra && ra * ra == a;
    assert 0.0 <= rb && rb * rb == b;
    assert (rb - ra) * (rb + ra) == b - a;
  }

  /** The square root of a positive number is positive. */
  lemma SqrtPositive(sqrt: real -> real, x: real)
    requires IsSqrt(sqrt) && x > 0.0
    ensures sqrt(x) > 0.0
  {
    SqrtStrictlyIncreasing(sqrt, 0.0, x);
  }

  /** The quotient of two positive reals, the smaller over the larger, lies strictly between 0 and 1. */
  lemma RatioInUnit(a: real, b: real)
    requires 0.0 < a < b
    ensures 0.0 < a / b < 1.0
  {
    var q := a / b;
    assert q * b == a;
    if q <= 0.0 {
      MulNonneg(-q, b);
      assert false;
    }
    if q >= 1.0 {
      MulNonneg(q - 1.0, b);
      assert false;
    }
  }

  /** A common non-zero factor cancels from a quotient. */
  lemma RatioCancels(g: real, a: real, b: real)
    requires g != 0.0 && b != 0.0
    ensures (g * a) / (g * b) == a / b
  {
    var q := a / b;
    assert q * b == a;
    assert q * (g * b) == g * a;
  }

  /** The quotient of two positive reals, the smaller over the larger or equal, lies in `(0, 1]`. */
  lemma RatioAtMostOne(a: real, b: real)
    requires 0.0 < a <= b
    ensures 0.0 < a / b <= 1.0
  {
    if a < b {
      RatioInUnit(a, b);
    }
  }

  /** The product of two positive reals is positive. */
  lemma MulPos(x: real, y: real)
    requires x > 0.0 && y > 0.0
    ensures x * y > 0.0
  {
  }

  /** The reciprocal of a positive real is positive. */
  lemma InversePositive(x: real)
    requires x > 0.0
    ensures 1.0 / x > 0.0
  {
    assert (1.0 / x) * x == 1.0;
    if 1.0 / x <= 0.0 {
      MulNonneg(-(1.0 / x), x);
      assert false;
    }
  }

  /** A product with a non-zero factor is zero exactly when the other factor is. */
  lemma ProductZero(x: real, y: real)
    requires y != 0.0
    ensures x * y == 0.0 <==> x == 0.0
  {
  }

  /** Two quotients with the same cross products are equal. */
  lemma CrossMultiply(a: real, b: real, c: real, d: real)
    requires b != 0.0 && d != 0.0 && a * d == c * b
    ensures a / b == c / d
  {
    var q1, q2 := a / b, c / d;
    assert q1 * b == a && q2 * d == c;
    assert (q1 - q2) * (b * d) == a * d - c * b;
    ProductZero(b, d);
    ProductZero(q1 - q2, b * d);
  }
}
