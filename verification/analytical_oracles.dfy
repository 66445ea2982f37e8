/**
 * The four small analytical problems the methods are exercised on. Each
 * oracle solves its inner minimisation in closed form: on the unit cube a
 * linear term is minimised by setting the variable to 1 exactly when its
 * cost is negative. The returned subgradient is the residual of the
 * dualised constraints at that minimiser. The oracles read only the first
 * two multipliers.
 */
module AnalyticalOracles {
  import opened Vectors
  import opened Protocol

  /** `1 if c < 0 else 0`, the inner minimiser of `c y` over `0 <= y <= 1`. */
  function Indicator(c: real): (r: real)
    ensures r == 0.0 || r == 1.0
  {
    if c < 0.0 then 1.0 else 0.0
  }

  /** `np.maximum(a, 0)` on one coordinate. */
  function Max0(a: real): (r: real)
    ensures r >= 0.0 && r >= a && (r == a || r == 0.0)
  {
    if a < 0.0 then 0.0 else a
  }

  /** `c y` is smallest at the indicator: no point of `[0, 1]` does better. */
  lemma IndicatorMinimises(c: real, y: real)
    requires 0.0 <= y <= 1.0
    ensures c * y >= c * Indicator(c)
  {
    if c < 0.0 {
      MulNonneg(-c, 1.0 - y);
    } else {
      MulNonneg(c, y);
    }
  }

  /** The inner product of two 2-vectors, written out. */
  lemma Dot2(a: Vec, b: Vec)
    requires |a| == |b| == 2
    ensures Dot(a, b) == a[0] * b[0] + a[1] * b[1]
  {
    assert Dot(a[1..], b[1..]) == a[1] * b[1] + Dot(a[2..], b[2..]);
  }

  /** A point of the unit cube of the given dimension. */
  predicate InCube(y: Vec, n: nat) {
    |y| == n && forall i :: 0 <= i < n ==> 0.0 <= y[i] <= 1.0
  }

  /** The inner minimiser of `<c, y>` over the unit cube, coordinate by coordinate. */
  function Indicators(c: Vec): (x: Vec)
    ensures |x| == |c| && InCube(x, |c|)
    ensures forall i :: 0 <= i < |c| ==> x[i] == Indicator(c[i])
  {
    seq(|c|, i requires 0 <= i < |c| => Indicator(c[i]))
  }

  /** No point of the unit cube makes `<c, y>` smaller than the indicators do. */
  lemma {:induction false} IndicatorsMinimise(c: Vec, y: Vec)
    requires InCube(y, |c|)
    ensures Dot(c, y) >= Dot(c, Indicators(c))
    decreases |c|
  {
    if |c| > 0 {
      var x := Indicators(c);
      assert x[1..] == Indicators(c[1..]);
      assert InCube(y[1..], |c| - 1);
      IndicatorsMinimise(c[1..], y[1..]);
      IndicatorMinimises(c[0], y[0]);
    }
  }

  /** The inner product of two 3-vectors, written out. */
  lemma Dot3(a: Vec, b: Vec)
    requires |a| == |b| == 3
    ensures Dot(a, b) == a[0] * b[0] + a[1] * b[1] + a[2] * b[2]
  {
    Dot2(a[1..], b[1..]);
  }

  // ----------------------------------------------------------------------
  // AnalyticalExampleInnerProblem
  // ----------------------------------------------------------------------

  /**
   * The Lagrangian of `min -0.5 y1 - y2 + y3` with `0.5 y1 + 0.5 y2 + y3 >= 1`
   * and `y1 + y2 <= 1` dualised.
   */
  function FirstLagrangian(l: Vec, y: Vec): real
    requires |l| >= 2 && |y| == 3
  {
    -0.5 * y[0] - y[1] + y[2] + l[0] * (1.0 - 0.5 * y[0] - 0.5 * y[1] - y[2]) + l[1] * (y[0] + y[1] - 1.0)
  }

  /** The first example's oracle. */
  function FirstOracle(l: Vec): (a: OracleAnswer<Vec>)
    requires |l| >= 2
    ensures |a.x| == 3 && |a.g| == 2 && InCube(a.x, 3)
    ensures a.d <= l[0] - l[1]
  {
    var c0 := -0.5 - 0.5 * l[0] + l[1];
    var c1 := -1.0 - 0.5 * l[0] + l[1];
    var c2 := 1.0 - l[0];
    var x := [Indicator(c0), Indicator(c1), Indicator(c2)];
    var g := [1.0 - 0.5 * x[0] - 0.5 * x[1] - x[2], x[0] + x[1] - 1.0];
    IndicatorMinimises(c0, 0.0);
    IndicatorMinimises(c1, 0.0);
    IndicatorMinimises(c2, 0.0);
    OracleAnswer(x, c0 * x[0] + c1 * x[1] + c2 * x[2] + l[0] - l[1], g)
  }

  /** The first example's projection, `np.maximum(lambda, 0)`. */
  function FirstProjection(l: Vec): (r: Vec)
    ensures |r| == |l| && forall i :: 0 <= i < |r| ==> r[i] >= 0.0
  {
    seq(|l|, i requires 0 <= i < |l| => Max0(l[i]))
  }

  /**
   * The first oracle solves its inner problem: its value is the Lagrangian
   * at the returned point, no point of the cube does better, and the
   * subgradient is the constraints' residual there.
   */
  lemma FirstOracleMinimises(l: Vec, y: Vec)
    requires |l| >= 2 && InCube(y, 3)
    ensures FirstOracle(l).d == FirstLagrangian(l, FirstOracle(l).x)
    ensures FirstLagrangian(l, y) >= FirstOracle(l).d
  {
    var c := FirstCosts(l);
    var x := FirstOracle(l).x;
    assert x == Indicators(c);
    IndicatorsMinimise(c, y);
    FirstLagrangianLinear(l, y);
    FirstLagrangianLinear(l, x);
    Dot3(c, x);
    assert FirstOracle(l).d == Dot(c, x) + l[0] - l[1];
  }

  /** The costs of the first inner problem's variables once the constraints are dualised. */
  function FirstCosts(l: Vec): (c: Vec)
    requires |l| >= 2
    ensures |c| == 3
  {
    [-0.5 - 0.5 * l[0] + l[1], -1.0 - 0.5 * l[0] + l[1], 1.0 - l[0]]
  }

  /** The first Lagrangian is linear in the inner point, with the dualised costs as coefficients. */
  lemma FirstLagrangianLinear(l: Vec, y: Vec)
    requires |l| >= 2 && |y| == 3
    ensures FirstLagrangian(l, y) == Dot(FirstCosts(l), y) + l[0] - l[1]
  {
    Dot3(FirstCosts(l), y);
  }

  /** The Lagrangian at a fixed inner point moves along the residual as the multipliers move. */
  lemma FirstLagrangianShift(l: Vec, m: Vec, y: Vec)
    requires |l| == |m| == 2 && |y| == 3
    ensures FirstLagrangian(m, y) == FirstLagrangian(l, y)
            + Dot([1.0 - 0.5 * y[0] - 0.5 * y[1] - y[2], y[0] + y[1] - 1.0], Sub(m, l))
  {
    Dot2([1.0 - 0.5 * y[0] - 0.5 * y[1] - y[2], y[0] + y[1] - 1.0], Sub(m, l));
  }

  /** The first oracle's `g` is a supergradient: `d(m) <= d(l) + <g(l), m - l>` for all `m`. */
  lemma FirstOracleSupergradient(l: Vec, m: Vec)
    requires |l| == |m| == 2
    ensures FirstOracle(m).d <= FirstOracle(l).d + Dot(FirstOracle(l).g, Sub(m, l))
  {
    var x := FirstOracle(l).x;
    FirstOracleMinimises(l, x);
    FirstOracleMinimises(m, x);
    FirstLagrangianShift(l, m, x);
  }

  /**
   * The documented dual optimum: `d = -0.5` along `lambda_1 = 1`,
   * `1 <= lambda_2 <= 1.5`, and no multiplier does better (weak duality
   * against the feasible point `(0, 1, 0.5)`).
   */
  lemma FirstOptimum(t: real, m: Vec)
    requires 1.0 <= t <= 1.5 && |m| >= 2
    ensures FirstOracle([1.0, t]).d == -0.5
    ensures FirstOracle(m).d <= -0.5
  {
    FirstOracleMinimises(m, [0.0, 1.0, 0.5]);
  }

  /** The first projection lands on the non-negative orthant and is the identity there, so it is idempotent. */
  lemma FirstProjectionFixesOrthant(l: Vec)
    ensures FirstProjection(l) == l <==> forall i :: 0 <= i < |l| ==> l[i] >= 0.0
    ensures FirstProjection(FirstProjection(l)) == FirstProjection(l)
  {
    if forall i :: 0 <= i < |l| ==> l[i] >= 0.0 {
      assert FirstProjection(l) == l;
    }
  }

  // ----------------------------------------------------------------------
  // SecondAnalyticalExampleInnerProblem
  // ----------------------------------------------------------------------

  /** The Lagrangian of `min -y1 - y2` with `y1 - y2 + 0.5 = 0` and `y1 + y2 <= 1` dualised. */
  function SecondLagrangian(l: Vec, y: Vec): real
    requires |l| >= 2 && |y| == 2
  {
    -y[0] - y[1] + l[0] * (y[0] + y[1] - 1.0) + l[1] * (y[0] - y[1] + 0.5)
  }

  /** The second example's oracle. */
  function SecondOracle(l: Vec): (a: OracleAnswer<Vec>)
    requires |l| >= 2
    ensures |a.x| == 2 && |a.g| == 2 && InCube(a.x, 2)
  {
    var c0 := -1.0 + l[0] + l[1];
    var c1 := -1.0 + l[0] - l[1];
    var x := [Indicator(c0), Indicator(c1)];
    var g := [x[0] + x[1] - 1.0, x[0] - x[1] + 0.5];
    OracleAnswer(x, c0 * x[0] + c1 * x[1] - l[0] + 0.5 * l[1], g)
  }

  /** The second example's projection: the first coordinate clamped at 0, the second left free. */
  function SecondProjection(l: Vec): (r: Vec)
    requires |l| >= 2
    ensures |r| == 2 && r[0] >= 0.0 && r[1] == l[1]
  {
    [Max0(l[0]), l[1]]
  }

  /** The costs of the second inner problem's variables once the constraints are dualised. */
  function SecondCosts(l: Vec): (c: Vec)
    requires |l| >= 2
    ensures |c| == 2
  {
    [-1.0 + l[0] + l[1], -1.0 + l[0] - l[1]]
  }

  /** The second Lagrangian is linear in the inner point, with the dualised costs as coefficients. */
  lemma SecondLagrangianLinear(l: Vec, y: Vec)
    requires |l| >= 2 && |y| == 2
    ensures SecondLagrangian(l, y) == Dot(SecondCosts(l), y) - l[0] + 0.5 * l[1]
  {
    Dot2(SecondCosts(l), y);
  }

  /** The second oracle solves its inner problem, like the first. */
  lemma SecondOracleMinimises(l: Vec, y: Vec)
    requires |l| >= 2 && InCube(y, 2)
    ensures SecondOracle(l).d == SecondLagrangian(l, SecondOracle(l).x)
    ensures SecondLagrangian(l, y) >= SecondOracle(l).d
  {
    var c := SecondCosts(l);
    var x := SecondOracle(l).x;
    assert x == Indicators(c);
    IndicatorsMinimise(c, y);
    SecondLagrangianLinear(l, y);
    SecondLagrangianLinear(l, x);
    Dot2(c, x);
    assert SecondOracle(l).d == Dot(c, x) - l[0] + 0.5 * l[1];
  }

  /** The second oracle's `g` is a supergradient. */
  lemma SecondOracleSupergradient(l: Vec, m: Vec)
    requires |l| == |m| == 2
    ensures SecondOracle(m).d <= SecondOracle(l).d + Dot(SecondOracle(l).g, Sub(m, l))
  {
    var x := SecondOracle(l).x;
    SecondOracleMinimises(l, x);
    SecondOracleMinimises(m, x);
    Dot2(SecondOracle(l).g, Sub(m, l));
  }

  /**
   * The documented dual optimum `d(1, 0) = -1`, and no multiplier does
   * better (weak duality against the feasible point `(0.25, 0.75)`).
   */
  lemma SecondOptimum(m: Vec)
    requires |m| >= 2
    ensures SecondOracle([1.0, 0.0]).d == -1.0
    ensures SecondOracle(m).d <= -1.0
  {
    SecondOracleMinimises(m, [0.25, 0.75]);
  }

  /** The second projection is idempotent and fixes exactly the points with a non-negative first coordinate. */
  lemma SecondProjectionIdempotent(l: Vec)
    requires |l| >= 2
    ensures SecondProjection(SecondProjection(l)) == SecondProjection(l)
    ensures |l| == 2 ==> (SecondProjection(l) == l <==> l[0] >= 0.0)
  {
    if |l| == 2 && l[0] >= 0.0 {
      assert SecondProjection(l) == [l[0], l[1]] == l;
    }
  }

  // ----------------------------------------------------------------------
  // ConstrainedDualAnalyticalExampleInnerProblem and BertsekasCounterExample
  // ----------------------------------------------------------------------

  /**
   * The constrained example's reply: an ordinary answer, or the sentinel
   * `(x, -inf, [inf, inf])` for a point where the dual function is not
   * defined.
   */
  datatype Reply = Defined(answer: OracleAnswer<Vec>) | Undefined(x: Vec)

  /** The constrained example's oracle. */
  function ConstrainedOracle(l: Vec): (r: Reply)
    requires |l| >= 2
    ensures r.Undefined? ==> |r.x| == 5
    ensures r.Defined? ==> |r.answer.x| == 5 && |r.answer.g| == 2
  {
    var c := [-1.0, 1.0, l[0], l[1], 0.5 - l[0] - l[1]];
    var x2 := Indicator(c[2]);
    var x3 := Indicator(c[3]);
    var x := [1.0, 0.0, x2, x3, (x2 + x3) / 2.0];
    var g := [x[2] - x[4], x[3] - x[4]];
    if !(Abs(c[4] - 0.0) <= 0.01) then Undefined(x)
    else Defined(OracleAnswer(x, c[0] * x[0] + c[1] * x[1] + c[2] * x[2] + c[3] * x[3] + c[4] * x[4], g))
  }

  /** The constrained example's projection onto `lambda_1 + lambda_2 = 0.5`. */
  function ConstrainedProjection(l: Vec): (r: Vec)
    requires |l| >= 2
    ensures |r| == 2
  {
    [(l[0] - l[1]) / 2.0 + 0.25, (l[1] - l[0]) / 2.0 + 0.25]
  }

  /**
   * The sentinel fires exactly off the band `|0.5 - lambda_1 - lambda_2| <= 0.01`
   * around the dual domain.
   */
  lemma ConstrainedSentinel(l: Vec)
    requires |l| >= 2
    ensures ConstrainedOracle(l).Undefined? <==> Abs(0.5 - l[0] - l[1]) > 0.01
  {
  }

  /**
   * The projection lands on the line `lambda_1 + lambda_2 = 0.5`, is the
   * identity there (so it is idempotent), and never yields a point where
   * the oracle answers with the sentinel.
   */
  lemma ConstrainedProjectionLandsOnLine(l: Vec)
    requires |l| >= 2
    ensures ConstrainedProjection(l)[0] + ConstrainedProjection(l)[1] == 0.5
    ensures |l| == 2 ==> (ConstrainedProjection(l) == l <==> l[0] + l[1] == 0.5)
    ensures ConstrainedProjection(ConstrainedProjection(l)) == ConstrainedProjection(l)
    ensures ConstrainedOracle(ConstrainedProjection(l)).Defined?
  {
    if |l| == 2 && l[0] + l[1] == 0.5 {
      assert ConstrainedProjection(l) == [l[0], l[1]] == l;
    }
  }

  /** `BertsekasCounterExample.oracle`, written out as in its own class. */
  function BertsekasOracle(l: Vec): (r: Reply)
    requires |l| >= 2
    ensures r.Defined? <==> Abs(0.5 - l[0] - l[1]) <= 0.01
  {
    var c := [-1.0, 1.0, l[0], l[1], 0.5 - l[0] - l[1]];
    var x2 := Indicator(c[2]);
    var x3 := Indicator(c[3]);
    var x := [1.0, 0.0, x2, x3, (x2 + x3) / 2.0];
    var g := [x[2] - x[4], x[3] - x[4]];
    if !(Abs(c[4] - 0.0) <= 0.01) then Undefined(x)
    else Defined(OracleAnswer(x, c[0] * x[0] + c[1] * x[1] + c[2] * x[2] + c[3] * x[3] + c[4] * x[4], g))
  }

  /** `BertsekasCounterExample.projection_function`, written out as in its own class. */
  function BertsekasProjection(l: Vec): (r: Vec)
    requires |l| >= 2
    ensures |r| == 2 && r[0] + r[1] == 0.5
  {
    [(l[0] - l[1]) / 2.0 + 0.25, (l[1] - l[0]) / 2.0 + 0.25]
  }

  /** The Bertsekas example is the constrained example under another name. */
  lemma BertsekasIsConstrained(l: Vec)
    requires |l| >= 2
    ensures BertsekasOracle(l) == ConstrainedOracle(l)
    ensures BertsekasProjection(l) == ConstrainedProjection(l)
  {
  }
}
