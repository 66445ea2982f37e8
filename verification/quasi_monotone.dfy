/**
 * The quasi-monotone subgradient methods of Nesterov and Shikhman: double
 * simple averaging (DSA), its entropy-prox variant, and triple averaging
 * (TA, variants 1 and 2). Every step queries the oracle once at the current
 * iterate, counts the call, notifies, and only then updates the aggregated
 * subgradient `s` and the iterate, which is a convex combination of the
 * previous iterate and a projected point.
 */
module QuasiMonotone {
  import opened Wrappers
  import opened Vectors
  import opened Protocol

  /** `METHOD_QUASI_MONOTONE_DEFAULT_GAMMA`. */
  const DefaultGamma: real := 1.0

  /** `LARGE_VAL`, the entropy method's default radius `R`. */
  const LargeVal: real := 10000.0

  /** Which of the three classes a state belongs to, with its class-specific parameter. */
  datatype Kind = DSA | Entropy(R: real) | TA(variant: int)

  /**
   * The public state of a quasi-monotone method. `lambda0` is the triple
   * averaging's fixed copy of its starting point; the other two methods
   * never read it and keep their starting point there.
   */
  datatype QMState<X> = QMState(kind: Kind, gamma: real, name: string,
                                iteration: nat, oracleCalls: nat,
                                lambda: Vec, lambda0: Vec, s: Vec, d: real, x: Option<X>)

  /** All vectors of the state have the problem's dimension. */
  predicate Valid<X>(p: Problem<X>, st: QMState<X>) {
    |st.lambda| == p.dim && |st.lambda0| == p.dim && |st.s| == p.dim
  }

  /**
   * DSA's constructor. The projection of the origin it computes is
   * overwritten at once: the first iterate is the origin itself, whether or
   * not it lies in the dual domain.
   */
  function NewDSA<X>(p: Problem<X>, gamma: real): (st: QMState<X>)
    ensures Valid(p, st) && st.kind == DSA && st.gamma == gamma && st.name == "DSA"
    ensures st.iteration == 0 && st.oracleCalls == 0 && st.x.None?
    ensures st.lambda == Zeros(p.dim) && st.s == Zeros(p.dim)
  {
    QMState(DSA, gamma, "DSA", 0, 0, Zeros(p.dim), Zeros(p.dim), Zeros(p.dim), 0.0, None)
  }

  /** The entropy variant's constructor: like DSA, it starts at the origin, with `d_k = 0`. */
  function NewEntropy<X>(p: Problem<X>, R: real, gamma: real): (st: QMState<X>)
    ensures Valid(p, st) && st.kind == Entropy(R) && st.gamma == gamma && st.name == "DSA-Entropy"
    ensures st.iteration == 0 && st.oracleCalls == 0 && st.x.None? && st.d == 0.0
    ensures st.lambda == Zeros(p.dim) && st.s == Zeros(p.dim)
  {
    QMState(Entropy(R), gamma, "DSA-Entropy", 0, 0, Zeros(p.dim), Zeros(p.dim), Zeros(p.dim), 0.0, None)
  }

  /**
   * TA's constructor: it starts at the projection of the origin and keeps a
   * copy of that point as `lambda_0`. The variant is not checked here.
   */
  function NewTA<X>(p: Problem<X>, variant: int, gamma: real): (st: QMState<X>)
    requires Consistent(p)
    ensures Valid(p, st) && st.kind == TA(variant) && st.gamma == gamma && st.name == "TA"
    ensures st.iteration == 0 && st.oracleCalls == 0 && st.x.None? && st.d == 0.0
    ensures st.lambda == st.lambda0 == p.project(Zeros(p.dim)) && st.s == Zeros(p.dim)
    ensures Idempotent(p.project) ==> Feasible(p.project, st.lambda)
  {
    var l0 := p.project(Zeros(p.dim));
    QMState(TA(variant), gamma, "TA", 0, 0, l0, l0, Zeros(p.dim), 0.0, None)
  }

  /**
   * What the observers are shown in a step: the current iterate with the
   * oracle's value and primal point at that very iterate, and a call count
   * that already includes this step's call.
   */
  function Shown<X>(p: Problem<X>, st: QMState<X>): View<X> {
    DualView(st.lambda, p.oracle(st.lambda).d, Some(p.oracle(st.lambda).x), st.oracleCalls + 1, NoExtras)
  }

  /** The state right after the oracle call: `x_k` and `d_k` stored and the call counted. */
  function Queried<X>(p: Problem<X>, st: QMState<X>): (r: QMState<X>)
    ensures r == st.(oracleCalls := r.oracleCalls, d := r.d, x := r.x)
    ensures r.oracleCalls == st.oracleCalls + 1
    ensures Shown(p, st) == DualView(r.lambda, r.d, r.x, r.oracleCalls, NoExtras)
  {
    st.(oracleCalls := st.oracleCalls + 1, d := p.oracle(st.lambda).d, x := Some(p.oracle(st.lambda).x))
  }

  /** DSA's averaging weights at step `t`: `(t+1)/(t+2)` on the iterate and `1/(t+2)` on the projected point. */
  function DSAWeights(t: nat): (w: (real, real))
    ensures 0.0 < w.0 && 0.0 < w.1 && w.0 + w.1 == 1.0
    ensures w.0 * ((t + 2) as real) == (t + 1) as real && w.1 * ((t + 2) as real) == 1.0
  {
    var n := (t + 2) as real;
    var w0, w1 := ((t + 1) as real) / n, 1.0 / n;
    assert w0 * n == (t + 1) as real && w1 * n == 1.0;
    assert (w0 + w1 - 1.0) * n == 0.0;
    ProductZero(w0 + w1 - 1.0, n);
    RatioInUnit((t + 1) as real, n);
    RatioInUnit(1.0, n);
    (w0, w1)
  }

  /** `gamma * sqrt(t + 1)` is zero exactly when `gamma` is, and never zero otherwise. */
  lemma ScaledRootZero(sqrt: real -> real, gamma: real, m: nat)
    requires IsSqrt(sqrt) && m >= 1
    ensures sqrt(m as real) > 0.0
    ensures gamma * sqrt(m as real) == 0.0 <==> gamma == 0.0
  {
    SqrtPositive(sqrt, m as real);
    ProductZero(gamma, sqrt(m as real));
  }

  /**
   * One DSA step: accumulate `s += g`, project `s / (gamma * sqrt(t+1))`,
   * and average it into the iterate. With `gamma == 0` the division raises
   * `ZeroDivisionError` after `s` was updated and before the iterate is.
   */
  function DSAStep<X>(p: Problem<X>, sqrt: real -> real, st: QMState<X>): (r: Stepped<QMState<X>, X>)
    requires Consistent(p) && IsSqrt(sqrt) && Valid(p, st) && st.kind == DSA
    ensures Valid(p, r.next) && r.next.kind == st.kind && r.next.gamma == st.gamma
    ensures r.notices == [Shown(p, st)] && r.next.oracleCalls == st.oracleCalls + 1
    ensures r.next.s == Add(st.s, p.oracle(st.lambda).g)
    ensures r.raised.Some? <==> st.gamma == 0.0
    ensures r.raised.Some? ==> r.raised.value == ZeroDivisionError
                               && r.next.lambda == st.lambda && r.next.iteration == st.iteration
    ensures r.raised.None? ==> r.next.iteration == st.iteration + 1
  {
    var t := st.iteration;
    var q := Queried(p, st).(s := Add(st.s, p.oracle(st.lambda).g));
    ScaledRootZero(sqrt, st.gamma, t + 1);
    var denom := st.gamma * sqrt((t + 1) as real);
    if denom == 0.0 then Stepped(q, [Shown(p, st)], Some(ZeroDivisionError))
    else
      var plus := DSAProjected(p, sqrt, st);
      var w := DSAWeights(t);
      Stepped(q.(lambda := Combine(w.0, st.lambda, w.1, plus), iteration := t + 1), [Shown(p, st)], None)
  }

  /** The point DSA averages in at a step that does not raise. */
  function DSAProjected<X>(p: Problem<X>, sqrt: real -> real, st: QMState<X>): (plus: Vec)
    requires Consistent(p) && IsSqrt(sqrt) && Valid(p, st) && st.gamma != 0.0
    ensures |plus| == p.dim
    ensures Idempotent(p.project) ==> Feasible(p.project, plus)
  {
    ScaledRootZero(sqrt, st.gamma, st.iteration + 1);
    p.project(Scale(1.0 / (st.gamma * sqrt((st.iteration + 1) as real)), Add(st.s, p.oracle(st.lambda).g)))
  }

  /**
   * DSA's iterate is a running average: `(t+2) * lambda_{t+1}` equals
   * `(t+1) * lambda_t` plus the projected point of step `t`.
   */
  lemma DSAIsRunningAverage<X>(p: Problem<X>, sqrt: real -> real, st: QMState<X>)
    requires Consistent(p) && IsSqrt(sqrt) && Valid(p, st) && st.kind == DSA && st.gamma != 0.0
    ensures var next := DSAStep(p, sqrt, st).next.lambda;
            var plus := DSAProjected(p, sqrt, st);
            |next| == |plus| == |st.lambda|
            && forall i :: 0 <= i < |next| ==>
                 ((st.iteration + 2) as real) * next[i] == ((st.iteration + 1) as real) * st.lambda[i] + plus[i]
  {
    var t := st.iteration;
    var next := DSAStep(p, sqrt, st).next.lambda;
    var plus := DSAProjected(p, sqrt, st);
    var w := DSAWeights(t);
    var n := (t + 2) as real;
    assert next == Combine(w.0, st.lambda, w.1, plus);
    forall i | 0 <= i < |next|
      ensures n * next[i] == ((t + 1) as real) * st.lambda[i] + plus[i]
    {
      assert next[i] == w.0 * st.lambda[i] + w.1 * plus[i];
      assert n * (w.0 * st.lambda[i]) == (w.0 * n) * st.lambda[i];
      assert n * (w.1 * plus[i]) == (w.1 * n) * plus[i];
    }
  }

  /**
   * One entropy step: accumulate `s += g`, scale it by `1/mu` with
   * `mu = R / (gamma * sqrt(t+1))`, apply the softmax projection and map
   * back with `R * (softmax - 1)`. A zero `gamma` or a zero `R` makes one of
   * the two divisions raise `ZeroDivisionError`.
   */
  function EntropyStep<X>(p: Problem<X>, sqrt: real -> real, st: QMState<X>): (r: Stepped<QMState<X>, X>)
    requires Consistent(p) && IsSqrt(sqrt) && Valid(p, st) && st.kind.Entropy?
    ensures Valid(p, r.next) && r.next.kind == st.kind && r.next.gamma == st.gamma
    ensures r.notices == [Shown(p, st)] && r.next.oracleCalls == st.oracleCalls + 1
    ensures r.next.s == Add(st.s, p.oracle(st.lambda).g)
    ensures r.raised.Some? <==> st.gamma == 0.0 || st.kind.R == 0.0
    ensures r.raised.Some? ==> r.raised.value == ZeroDivisionError
                               && r.next.lambda == st.lambda && r.next.iteration == st.iteration
    ensures r.raised.None? ==> r.next.iteration == st.iteration + 1
                               && r.next.lambda == Scale(st.kind.R, ShiftDown(EntropySoftmax(p, sqrt, st), 1.0))
  {
    var t := st.iteration;
    var R := st.kind.R;
    var q := Queried(p, st).(s := Add(st.s, p.oracle(st.lambda).g));
    ScaledRootZero(sqrt, st.gamma, t + 1);
    var denom := st.gamma * sqrt((t + 1) as real);
    if denom == 0.0 then Stepped(q, [Shown(p, st)], Some(ZeroDivisionError))
    else
      var mu := R / denom;
      assert mu * denom == R;
      ProductZero(mu, denom);
      if mu == 0.0 then Stepped(q, [Shown(p, st)], Some(ZeroDivisionError))
      else
        var soft := EntropySoftmax(p, sqrt, st);
        Stepped(q.(lambda := Scale(R, ShiftDown(soft, 1.0)), iteration := t + 1), [Shown(p, st)], None)
  }

  /** The softmax point of an entropy step that does not raise: the projection of `s / mu`. */
  function EntropySoftmax<X>(p: Problem<X>, sqrt: real -> real, st: QMState<X>): (soft: Vec)
    requires Consistent(p) && IsSqrt(sqrt) && Valid(p, st) && st.kind.Entropy?
    requires st.gamma != 0.0 && st.kind.R != 0.0
    ensures |soft| == p.dim
    ensures Idempotent(p.project) ==> Feasible(p.project, soft)
  {
    ScaledRootZero(sqrt, st.gamma, st.iteration + 1);
    var denom := st.gamma * sqrt((st.iteration + 1) as real);
    var mu := st.kind.R / denom;
    assert mu * denom == st.kind.R;
    ProductZero(mu, denom);
    p.project(Scale(1.0 / mu, Add(st.s, p.oracle(st.lambda).g)))
  }

  /**
   * With a positive radius and a softmax projection that lands in the unit
   * box, every entropy iterate after the first step lies in `[-R, 0]`.
   */
  lemma EntropyLandsInBox<X>(p: Problem<X>, sqrt: real -> real, st: QMState<X>)
    requires Consistent(p) && IsSqrt(sqrt) && Valid(p, st) && st.kind.Entropy? && st.kind.R > 0.0
    requires st.gamma != 0.0
    requires forall v: Vec :: InBox(p.project(v), 0.0, 1.0)
    ensures InBox(EntropyStep(p, sqrt, st).next.lambda, -st.kind.R, 0.0)
  {
    var R := st.kind.R;
    var soft := EntropySoftmax(p, sqrt, st);
    assert InBox(soft, 0.0, 1.0);
    var next := EntropyStep(p, sqrt, st).next.lambda;
    assert next == Scale(R, ShiftDown(soft, 1.0));
    forall i | 0 <= i < |next|
      ensures -R <= next[i] <= 0.0
    {
      assert next[i] == R * (soft[i] - 1.0);
      MulNonneg(R, 1.0 - soft[i]);
      MulNonneg(R, soft[i]);
      assert R * (1.0 - soft[i]) == -(R * (soft[i] - 1.0));
      assert R * soft[i] == R * (soft[i] - 1.0) + R;
    }
  }

  /** `sum(range(n))`, i.e. `0 + 1 + ... + (n - 1)`. */
  function Triangular(n: nat): (r: nat)
    ensures r + 1 >= n
  {
    if n == 0 then 0 else Triangular(n - 1) + (n - 1)
  }

  /** Gauss's closed form of `sum(range(n))`. */
  lemma {:induction false} TriangularClosedForm(n: nat)
    ensures 2 * Triangular(n) == n * (n - 1)
  {
    if n > 0 {
      TriangularClosedForm(n - 1);
      assert (n - 1) * (n - 2) + 2 * (n - 1) == n * (n - 1);
    }
  }

  /**
   * One step of triple averaging's schedule: the coefficient of the new
   * subgradient in `s`, `gamma_t`, `gamma_{t+1}` and `tau_t`.
   */
  datatype Schedule = Schedule(weight: real, gammaT: real, gammaNext: real, tau: real)

  /**
   * The schedule of variant 1 (`s += g`, `gamma_t = gamma * sqrt(t+1)`,
   * `tau_t = 1/(t+2)`) and of variant 2 (`s += (t+1) g`,
   * `gamma_t = gamma * (t+1)^(3/2)`, `tau_t = (t+1) / sum(range(t+2))`);
   * any other variant has none.
   */
  function TASchedule(variant: int, gamma: real, t: nat, sqrt: real -> real): (r: Option<Schedule>)
    ensures r.Some? <==> variant == 1 || variant == 2
  {
    var t1, t2 := (t + 1) as real, (t + 2) as real;
    if variant == 1 then
      Some(Schedule(1.0, gamma * Growth(1, t1, sqrt), gamma * Growth(1, t2, sqrt), 1.0 / t2))
    else if variant == 2 then
      Some(Schedule(t1, gamma * Growth(2, t1, sqrt), gamma * Growth(2, t2, sqrt), t1 / (Triangular(t + 2) as real)))
    else None
  }

  /** The factor `gamma_t` grows by at `t + 1 = u`: `sqrt(u)` for variant 1, `u^(3/2)` for variant 2. */
  function Growth(variant: int, u: real, sqrt: real -> real): real {
    if variant == 1 then sqrt(u) else u * sqrt(u)
  }

  /** `(t+1)^(3/2) < (t+2)^(3/2)`, both positive. */
  lemma ThreeHalvesIncreasing(sqrt: real -> real, t: nat)
    requires IsSqrt(sqrt)
    ensures 0.0 < ((t + 1) as real) * sqrt((t + 1) as real) < ((t + 2) as real) * sqrt((t + 2) as real)
  {
    var t1, t2 := (t + 1) as real, (t + 2) as real;
    var r1, r2 := sqrt(t1), sqrt(t2);
    SqrtStrictlyIncreasing(sqrt, t1, t2);
    SqrtPositive(sqrt, t1);
    MulPos(t1, r1);
    MulNonneg(t2, r2 - r1);
    assert t2 * r2 - t1 * r1 == t2 * (r2 - r1) + r1;
  }

  /**
   * The schedule's gammas vanish exactly when `gamma` does, and otherwise
   * `gamma_t / gamma_{t+1}` lies strictly between 0 and 1.
   */
  lemma TAGammaFacts(variant: int, gamma: real, t: nat, sqrt: real -> real)
    requires IsSqrt(sqrt) && (variant == 1 || variant == 2)
    ensures var sch := TASchedule(variant, gamma, t, sqrt).value;
            && (sch.gammaT == 0.0 <==> gamma == 0.0)
            && (sch.gammaNext == 0.0 <==> gamma == 0.0)
            && (gamma != 0.0 ==> 0.0 < sch.gammaT / sch.gammaNext < 1.0)
  {
    GrowthIncreasing(variant, t, sqrt);
    var a, b := TAGammaShape(variant, gamma, t, sqrt);
    ScaledRatio(gamma, a, b);
  }

  /**
   * Given that the growth factor increases, both gammas of the schedule are
   * `gamma` times a positive factor, the later factor the larger, and the
   * factors' ratio is written out per variant.
   */
  lemma TAGammaShape(variant: int, gamma: real, t: nat, sqrt: real -> real) returns (a: real, b: real)
    requires variant == 1 || variant == 2
    requires 0.0 < Growth(variant, (t + 1) as real, sqrt) < Growth(variant, (t + 2) as real, sqrt)
    ensures 0.0 < a < b
    ensures TASchedule(variant, gamma, t, sqrt).value.gammaT == gamma * a
    ensures TASchedule(variant, gamma, t, sqrt).value.gammaNext == gamma * b
    ensures var t1, t2 := (t + 1) as real, (t + 2) as real;
            && sqrt(t2) != 0.0 && t2 * sqrt(t2) != 0.0
            && a / b == if variant == 1 then sqrt(t1) / sqrt(t2) else (t1 * sqrt(t1)) / (t2 * sqrt(t2))
  {
    var t1, t2 := (t + 1) as real, (t + 2) as real;
    TAScheduleGammas(variant, gamma, t, sqrt);
    a, b := Growth(variant, t1, sqrt), Growth(variant, t2, sqrt);
    if variant == 2 {
      assert t2 * sqrt(t2) != 0.0;
    }
  }

  /** The schedule's gammas are `gamma` times the growth factor at `t + 1` and `t + 2`. */
  lemma TAScheduleGammas(variant: int, gamma: real, t: nat, sqrt: real -> real)
    requires variant == 1 || variant == 2
    ensures TASchedule(variant, gamma, t, sqrt).value.gammaT == gamma * Growth(variant, (t + 1) as real, sqrt)
    ensures TASchedule(variant, gamma, t, sqrt).value.gammaNext == gamma * Growth(variant, (t + 2) as real, sqrt)
  {
  }

  /** The growth factor is positive and increases from `t + 1` to `t + 2`. */
  lemma GrowthIncreasing(variant: int, t: nat, sqrt: real -> real)
    requires IsSqrt(sqrt) && (variant == 1 || variant == 2)
    ensures 0.0 < Growth(variant, (t + 1) as real, sqrt) < Growth(variant, (t + 2) as real, sqrt)
  {
    var t1, t2 := (t + 1) as real, (t + 2) as real;
    if variant == 1 {
      SqrtStrictlyIncreasing(sqrt, t1, t2);
      SqrtPositive(sqrt, t1);
    } else {
      ThreeHalvesIncreasing(sqrt, t);
    }
  }

  /** Scaling two increasing positive numbers by `gamma` keeps their ratio in `(0, 1)` unless `gamma` is 0. */
  lemma ScaledRatio(gamma: real, ua: real, ub: real)
    requires 0.0 < ua < ub
    ensures gamma * ua == 0.0 <==> gamma == 0.0
    ensures gamma * ub == 0.0 <==> gamma == 0.0
    ensures gamma != 0.0 ==> 0.0 < (gamma * ua) / (gamma * ub) < 1.0
  {
    ProductZero(gamma, ua);
    ProductZero(gamma, ub);
    if gamma != 0.0 {
      RatioCancels(gamma, ua, ub);
      RatioInUnit(ua, ub);
    }
  }

  /**
   * `tau_t` lies in `(0, 1]`: it is `1/(t+2)` for variant 1 and `2/(t+2)`
   * for variant 2, so the first step of variant 2 has `tau_0 = 1`.
   */
  lemma TATauFacts(variant: int, gamma: real, t: nat, sqrt: real -> real)
    requires variant == 1 || variant == 2
    ensures var sch := TASchedule(variant, gamma, t, sqrt).value;
            && 0.0 < sch.tau <= 1.0
            && (variant == 1 ==> sch.tau == 1.0 / ((t + 2) as real))
            && (variant == 2 ==> sch.tau == 2.0 / ((t + 2) as real))
            && (variant == 2 && t == 0 ==> sch.tau == 1.0)
  {
    var t1, t2 := (t + 1) as real, (t + 2) as real;
    if variant == 1 {
      RatioAtMostOne(1.0, t2);
    } else {
      var tri := Triangular(t + 2);
      TriangularClosedForm(t + 2);
      assert 2 * tri == (t + 2) * (t + 1);
      assert 2.0 * (tri as real) == t2 * t1;
      CrossMultiply(t1, tri as real, 2.0, t2);
      RatioAtMostOne(2.0, t2);
    }
  }

  /**
   * One TA step. An unsupported variant raises `ValueError` once the oracle
   * call is counted and observers notified, leaving `s` alone; otherwise the
   * subgradient is accumulated with the variant's weight, the display name
   * set, and a zero `gamma_t` raises `ZeroDivisionError`. A normal step
   * projects `s / gamma_t`, pulls it towards `lambda_0` by the ratio
   * `gamma_t / gamma_{t+1}`, and averages the result into the iterate with
   * weight `tau_t`.
   */
  function TAStep<X>(p: Problem<X>, sqrt: real -> real, st: QMState<X>): (r: Stepped<QMState<X>, X>)
    requires Consistent(p) && IsSqrt(sqrt) && Valid(p, st) && st.kind.TA?
    ensures Valid(p, r.next) && r.next.kind == st.kind && r.next.gamma == st.gamma && r.next.lambda0 == st.lambda0
    ensures r.notices == [Shown(p, st)] && r.next.oracleCalls == st.oracleCalls + 1
    ensures st.kind.variant != 1 && st.kind.variant != 2 ==> r.raised == Some(ValueError) && r.next.s == st.s
    ensures st.kind.variant == 1 ==> r.next.s == Add(st.s, p.oracle(st.lambda).g) && r.next.name == "TA 1"
    ensures st.kind.variant == 2 ==>
              r.next.s == Add(st.s, Scale((st.iteration + 1) as real, p.oracle(st.lambda).g)) && r.next.name == "TA 2"
    ensures (st.kind.variant == 1 || st.kind.variant == 2) ==>
              (r.raised.Some? <==> st.gamma == 0.0) && (r.raised.Some? ==> r.raised.value == ZeroDivisionError)
    ensures r.raised.Some? ==> r.next.lambda == st.lambda && r.next.iteration == st.iteration
    ensures r.raised.None? ==> r.next.iteration == st.iteration + 1
  {
    var t := st.iteration;
    var variant := st.kind.variant;
    var a := p.oracle(st.lambda);
    var q := Queried(p, st);
    match TASchedule(variant, st.gamma, t, sqrt)
    case None => Stepped(q, [Shown(p, st)], Some(ValueError))
    case Some(sch) =>
      TAGammaFacts(variant, st.gamma, t, sqrt);
      var q' := q.(s := Add(st.s, Scale(sch.weight, a.g)), name := if variant == 1 then "TA 1" else "TA 2");
      assert variant == 1 ==> Scale(sch.weight, a.g) == a.g;
      if sch.gammaT == 0.0 then Stepped(q', [Shown(p, st)], Some(ZeroDivisionError))
      else
        var plus := p.project(Scale(1.0 / sch.gammaT, q'.s));
        var ratio := sch.gammaT / sch.gammaNext;
        var hat := Combine(ratio, plus, 1.0 - ratio, st.lambda0);
        Stepped(q'.(lambda := Combine(1.0 - sch.tau, st.lambda, sch.tau, hat), iteration := t + 1),
                [Shown(p, st)], None)
  }

  /**
   * The point TA pulls towards `lambda_0` at a step that does not raise:
   * the projection of `s_{t+1} / gamma_t`, with `s_{t+1} = s_t + g` and
   * `gamma_t = gamma * sqrt(t+1)` for variant 1, and `s_{t+1} = s_t + (t+1) g`
   * and `gamma_t = gamma * (t+1)^(3/2)` for variant 2.
   */
  function TAProjected<X>(p: Problem<X>, sqrt: real -> real, st: QMState<X>): (plus: Vec)
    requires Consistent(p) && IsSqrt(sqrt) && Valid(p, st) && st.kind.TA?
    requires (st.kind.variant == 1 || st.kind.variant == 2) && st.gamma != 0.0
    ensures |plus| == p.dim
    ensures Idempotent(p.project) ==> Feasible(p.project, plus)
  {
    var sch := TASchedule(st.kind.variant, st.gamma, st.iteration, sqrt).value;
    TAGammaFacts(st.kind.variant, st.gamma, st.iteration, sqrt);
    p.project(Scale(1.0 / sch.gammaT, Add(st.s, Scale(sch.weight, p.oracle(st.lambda).g))))
  }

  /**
   * TA's iterate law: the new iterate is `(1 - tau) lambda_t + tau hat`
   * with `hat = rho plus + (1 - rho) lambda_0`, where `rho = gamma_t / gamma_{t+1}`
   * is `sqrt(t+1)/sqrt(t+2)` for variant 1 and `(t+1)^(3/2)/(t+2)^(3/2)` for
   * variant 2, and `tau` is `1/(t+2)` for variant 1 and `2/(t+2)` for variant 2.
   */
  lemma TAIsTripleAverage<X>(p: Problem<X>, sqrt: real -> real, st: QMState<X>)
    requires Consistent(p) && IsSqrt(sqrt) && Valid(p, st) && st.kind.TA?
    requires (st.kind.variant == 1 || st.kind.variant == 2) && st.gamma != 0.0
    ensures TAStep(p, sqrt, st).raised.None?
    ensures var t1, t2 := (st.iteration + 1) as real, (st.iteration + 2) as real;
            var next := TAStep(p, sqrt, st).next.lambda;
            var plus := TAProjected(p, sqrt, st);
            var rho := if st.kind.variant == 1 then sqrt(t1) / sqrt(t2) else (t1 * sqrt(t1)) / (t2 * sqrt(t2));
            var tau := if st.kind.variant == 1 then 1.0 / t2 else 2.0 / t2;
            next == Combine(1.0 - tau, st.lambda, tau, Combine(rho, plus, 1.0 - rho, st.lambda0))
  {
    var t, variant := st.iteration, st.kind.variant;
    var t2 := (t + 2) as real;
    var sch := TASchedule(variant, st.gamma, t, sqrt).value;
    TAStepBySchedule(p, sqrt, st);
    TATauFacts(variant, st.gamma, t, sqrt);
    GrowthIncreasing(st.kind.variant, st.iteration, sqrt);
    var rho := TARatio(p, sqrt, st);
    assert sch.tau == if variant == 1 then 1.0 / t2 else 2.0 / t2;
  }

  /** A step of a TA state with a known variant and a nonzero `gamma` does not raise, and mixes by its schedule. */
  lemma TAStepBySchedule<X>(p: Problem<X>, sqrt: real -> real, st: QMState<X>)
    requires Consistent(p) && IsSqrt(sqrt) && Valid(p, st) && st.kind.TA?
    requires (st.kind.variant == 1 || st.kind.variant == 2) && st.gamma != 0.0
    ensures var sch := TASchedule(st.kind.variant, st.gamma, st.iteration, sqrt).value;
            var ratio := sch.gammaT / sch.gammaNext;
            && TAStep(p, sqrt, st).raised.None?
            && TAStep(p, sqrt, st).next.lambda
               == Combine(1.0 - sch.tau, st.lambda, sch.tau, Combine(ratio, TAProjected(p, sqrt, st), 1.0 - ratio, st.lambda0))
  {
    TAGammaFacts(st.kind.variant, st.gamma, st.iteration, sqrt);
  }

  /**
   * The schedule's ratio `gamma_t / gamma_{t+1}` with `gamma` cancelled,
   * given that the growth factor increases (which `GrowthIncreasing` proves
   * for a true square root).
   */
  lemma TARatio<X>(p: Problem<X>, sqrt: real -> real, st: QMState<X>) returns (rho: real)
    requires st.kind.TA? && (st.kind.variant == 1 || st.kind.variant == 2) && st.gamma != 0.0
    requires var v := st.kind.variant;
             0.0 < Growth(v, (st.iteration + 1) as real, sqrt) < Growth(v, (st.iteration + 2) as real, sqrt)
    ensures var t1, t2 := (st.iteration + 1) as real, (st.iteration + 2) as real;
            rho == if st.kind.variant == 1 then sqrt(t1) / sqrt(t2) else (t1 * sqrt(t1)) / (t2 * sqrt(t2))
    ensures var sch := TASchedule(st.kind.variant, st.gamma, st.iteration, sqrt).value;
            sch.gammaT / sch.gammaNext == rho
  {
    var t, variant := st.iteration, st.kind.variant;
    var t1, t2 := (t + 1) as real, (t + 2) as real;
    var ua, ub := TAGammaShape(variant, st.gamma, t, sqrt);
    RatioCancels(st.gamma, ua, ub);
    rho := ua / ub;
  }

  /** `dual_step` of whichever class the state belongs to. */
  function Step<X>(p: Problem<X>, sqrt: real -> real, st: QMState<X>): (r: Stepped<QMState<X>, X>)
    requires Consistent(p) && IsSqrt(sqrt) && Valid(p, st)
    ensures Valid(p, r.next) && r.next.kind == st.kind && r.next.gamma == st.gamma && r.next.lambda0 == st.lambda0
    ensures r.notices == [Shown(p, st)] && r.next.oracleCalls == st.oracleCalls + 1
    ensures r.raised.Some? ==> r.next.lambda == st.lambda && r.next.iteration == st.iteration
    ensures r.raised.None? ==> r.next.iteration == st.iteration + 1
  {
    match st.kind
    case DSA => DSAStep(p, sqrt, st)
    case Entropy(_) => EntropyStep(p, sqrt, st)
    case TA(_) => TAStep(p, sqrt, st)
  }

  /** The configurations whose first step raises: which parameter makes the step fail. */
  predicate BadConfig(kind: Kind, gamma: real) {
    match kind
    case DSA => gamma == 0.0
    case Entropy(R) => gamma == 0.0 || R == 0.0
    case TA(variant) => (variant != 1 && variant != 2) || gamma == 0.0
  }

  /** The exception a bad configuration raises. */
  function ErrorOf(kind: Kind): Error {
    if kind.TA? && kind.variant != 1 && kind.variant != 2 then ValueError else ZeroDivisionError
  }

  /**
   * A step raises exactly when the configuration is bad, and then with the
   * exception the configuration determines: the variant check comes before
   * any division.
   */
  lemma StepRaisesIffBadConfig<X>(p: Problem<X>, sqrt: real -> real, st: QMState<X>)
    requires Consistent(p) && IsSqrt(sqrt) && Valid(p, st)
    ensures Step(p, sqrt, st).raised == if BadConfig(st.kind, st.gamma) then Some(ErrorOf(st.kind)) else None
  {
  }

  /** `n` consecutive steps, ending early at the first step that raises. */
  function Run<X>(p: Problem<X>, sqrt: real -> real, st: QMState<X>, n: nat): (r: Stepped<QMState<X>, X>)
    requires Consistent(p) && IsSqrt(sqrt) && Valid(p, st)
    ensures Valid(p, r.next) && r.next.kind == st.kind && r.next.gamma == st.gamma && r.next.lambda0 == st.lambda0
    decreases n
  {
    if n == 0 then Stepped(st, [], None)
    else
      var r := Step(p, sqrt, st);
      if r.raised.Some? then r
      else
        var rest := Run(p, sqrt, r.next, n - 1);
        Stepped(rest.next, r.notices + rest.notices, rest.raised)
  }

  /**
   * Every notification of a run shows an iterate together with the oracle's
   * value and primal point at that iterate, and the k-th shows the call
   * count `calls0 + k + 1`.
   */
  ghost predicate ShowsOwnValues<X>(p: Problem<X>, notices: seq<View<X>>, calls0: nat) {
    forall k :: 0 <= k < |notices| ==>
      && notices[k].DualView?
      && notices[k].oracleCalls == calls0 + k + 1
      && notices[k].d == p.oracle(notices[k].lambda).d
      && notices[k].primal == Some(p.oracle(notices[k].lambda).x)
  }

  /**
   * Over a run of `n` steps: one notification per attempted step, each
   * counting its own oracle call and pairing its iterate with that
   * iterate's value; a run that raises stops at its first step exactly when
   * the configuration is bad, and otherwise advances the iteration counter
   * by `n`.
   */
  lemma {:induction false} RunAccounting<X>(p: Problem<X>, sqrt: real -> real, st: QMState<X>, n: nat)
    requires Consistent(p) && IsSqrt(sqrt) && Valid(p, st)
    ensures Run(p, sqrt, st, n).next.oracleCalls == st.oracleCalls + |Run(p, sqrt, st, n).notices|
    ensures ShowsOwnValues(p, Run(p, sqrt, st, n).notices, st.oracleCalls)
    ensures n > 0 ==> (Run(p, sqrt, st, n).raised.Some? <==> BadConfig(st.kind, st.gamma))
    ensures Run(p, sqrt, st, n).raised.Some? ==>
              |Run(p, sqrt, st, n).notices| == 1 && Run(p, sqrt, st, n).raised == Some(ErrorOf(st.kind))
              && Run(p, sqrt, st, n).next.iteration == st.iteration
    ensures Run(p, sqrt, st, n).raised.None? ==>
              |Run(p, sqrt, st, n).notices| == n && Run(p, sqrt, st, n).next.iteration == st.iteration + n
    decreases n
  {
    if n > 0 {
      var r := Step(p, sqrt, st);
      StepRaisesIffBadConfig(p, sqrt, st);
      if r.raised.None? {
        RunAccounting(p, sqrt, r.next, n - 1);
        StepRaisesIffBadConfig(p, sqrt, r.next);
        var rest := Run(p, sqrt, r.next, n - 1);
        var notices := r.notices + rest.notices;
        assert Run(p, sqrt, st, n).notices == notices;
        forall k | 0 <= k < |notices|
          ensures && notices[k].DualView?
                  && notices[k].oracleCalls == st.oracleCalls + k + 1
                  && notices[k].d == p.oracle(notices[k].lambda).d
                  && notices[k].primal == Some(p.oracle(notices[k].lambda).x)
        {
          if k > 0 {
            assert notices[k] == rest.notices[k - 1];
          }
        }
        if n > 1 {
          assert rest.raised.None?;
        }
      }
    }
  }

  /**
   * DSA and TA keep the iterate in any box their projection lands in: a
   * step that starts in the box (with `lambda_0` in it too) ends in it,
   * because every update is a convex combination of points of the box.
   */
  lemma StepStaysInBox<X>(p: Problem<X>, sqrt: real -> real, st: QMState<X>, lo: real, hi: real)
    requires Consistent(p) && IsSqrt(sqrt) && Valid(p, st) && !st.kind.Entropy?
    requires forall v: Vec :: InBox(p.project(v), lo, hi)
    requires InBox(st.lambda, lo, hi) && (st.kind.TA? ==> InBox(st.lambda0, lo, hi))
    ensures InBox(Step(p, sqrt, st).next.lambda, lo, hi)
  {
    var r := Step(p, sqrt, st);
    var t := st.iteration;
    if r.raised.None? {
      if st.kind.DSA? {
        var w := DSAWeights(t);
        var plus := DSAProjected(p, sqrt, st);
        assert r.next.lambda == Combine(w.0, st.lambda, w.1, plus);
        CombineInBox(w.0, st.lambda, w.1, plus, lo, hi);
      } else {
        var variant := st.kind.variant;
        var sch := TASchedule(variant, st.gamma, t, sqrt).value;
        TAGammaFacts(variant, st.gamma, t, sqrt);
        TATauFacts(variant, st.gamma, t, sqrt);
        var a := p.oracle(st.lambda);
        var s' := Add(st.s, Scale(sch.weight, a.g));
        var plus := p.project(Scale(1.0 / sch.gammaT, s'));
        var ratio := sch.gammaT / sch.gammaNext;
        var hat := Combine(ratio, plus, 1.0 - ratio, st.lambda0);
        CombineInBox(ratio, plus, 1.0 - ratio, st.lambda0, lo, hi);
        assert r.next.lambda == Combine(1.0 - sch.tau, st.lambda, sch.tau, hat);
        CombineInBox(1.0 - sch.tau, st.lambda, sch.tau, hat, lo, hi);
      }
    }
  }

}
