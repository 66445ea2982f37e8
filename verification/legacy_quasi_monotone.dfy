/**
 * The earlier version of the double simple and triple averaging methods.
 * Both classes start from zero vectors of length `n_constr` without
 * projecting, and notify only at the very end of a step: observers see the
 * new iterate next to the value `d_k` the oracle returned at the previous
 * one. A step that raises therefore notifies nobody.
 */
module LegacyQuasiMonotone {
  import opened Wrappers
  import opened Vectors
  import opened Protocol
  import QM = QuasiMonotone

  /** DSA's constructor: iterate, aggregate and value all zero. */
  function NewLegacyDSA<X>(p: Problem<X>, gamma: real): (st: QM.QMState<X>)
    ensures QM.Valid(p, st) && st.kind == QM.DSA && st.gamma == gamma && st.name == "DSA"
    ensures st.iteration == 0 && st.oracleCalls == 0 && st.d == 0.0 && st.x.None?
    ensures st.lambda == Zeros(p.dim) && st.s == Zeros(p.dim)
  {
    QM.QMState(QM.DSA, gamma, "DSA", 0, 0, Zeros(p.dim), Zeros(p.dim), Zeros(p.dim), 0.0, None)
  }

  /** TA's constructor: both the iterate and its fixed copy `lambda_0` are the unprojected origin. */
  function NewLegacyTA<X>(p: Problem<X>, variant: int, gamma: real): (st: QM.QMState<X>)
    ensures QM.Valid(p, st) && st.kind == QM.TA(variant) && st.gamma == gamma && st.name == "TA"
    ensures st.iteration == 0 && st.oracleCalls == 0 && st.d == 0.0 && st.x.None?
    ensures st.lambda == Zeros(p.dim) && st.lambda0 == Zeros(p.dim) && st.s == Zeros(p.dim)
  {
    QM.QMState(QM.TA(variant), gamma, "TA", 0, 0, Zeros(p.dim), Zeros(p.dim), Zeros(p.dim), 0.0, None)
  }

  /** What the observers are shown at the end of a step: the state as the step left it. */
  function ShownAfter<X>(st: QM.QMState<X>): View<X> {
    DualView(st.lambda, st.d, st.x, st.oracleCalls, NoExtras)
  }

  /**
   * One legacy `dual_step`: the oracle call and its count, then the update
   * (with the same weights, schedule and exceptions as the current
   * classes), then a single notification, unless the update raised.
   */
  function LegacyStep<X>(p: Problem<X>, sqrt: real -> real, st: QM.QMState<X>): (r: Stepped<QM.QMState<X>, X>)
    requires Consistent(p) && IsSqrt(sqrt) && QM.Valid(p, st) && !st.kind.Entropy?
    ensures QM.Valid(p, r.next) && r.next.kind == st.kind && r.next.gamma == st.gamma
    ensures r.next.oracleCalls == st.oracleCalls + 1
    ensures r.raised.Some? <==> QM.BadConfig(st.kind, st.gamma)
    ensures r.raised.Some? ==> r.notices == [] && r.raised == Some(QM.ErrorOf(st.kind))
    ensures r.raised.None? ==> r.notices == [ShownAfter(r.next)]
                               && r.notices[0].d == p.oracle(st.lambda).d
                               && r.notices[0].primal == Some(p.oracle(st.lambda).x)
  {
    var a := p.oracle(st.lambda);
    var q := QM.Queried(p, st);
    var t := st.iteration;
    match st.kind
    case DSA =>
      QM.ScaledRootZero(sqrt, st.gamma, t + 1);
      var q' := q.(s := Add(st.s, a.g));
      if st.gamma * sqrt((t + 1) as real) == 0.0 then Stepped(q', [], Some(ZeroDivisionError))
      else
        var w := QM.DSAWeights(t);
        var next := q'.(lambda := Combine(w.0, st.lambda, w.1, QM.DSAProjected(p, sqrt, st)), iteration := t + 1);
        Stepped(next, [ShownAfter(next)], None)
    case TA(variant) =>
      if variant != 1 && variant != 2 then Stepped(q, [], Some(ValueError))
      else
        var sch := QM.TASchedule(variant, st.gamma, t, sqrt).value;
        QM.TAGammaFacts(variant, st.gamma, t, sqrt);
        var q' := q.(s := Add(st.s, Scale(sch.weight, a.g)), name := if variant == 1 then "TA 1" else "TA 2");
        if sch.gammaT == 0.0 then Stepped(q', [], Some(ZeroDivisionError))
        else
          var plus := p.project(Scale(1.0 / sch.gammaT, q'.s));
          var ratio := sch.gammaT / sch.gammaNext;
          var hat := Combine(ratio, plus, 1.0 - ratio, st.lambda0);
          var next := q'.(lambda := Combine(1.0 - sch.tau, st.lambda, sch.tau, hat), iteration := t + 1);
          Stepped(next, [ShownAfter(next)], None)
  }

  /**
   * The legacy and the current classes apply the same update law and raise
   * the same exceptions; they differ only in when they notify. The current
   * class shows the iterate it queried, the legacy class the iterate it
   * computed.
   */
  lemma SameLawLaterNotice<X>(p: Problem<X>, sqrt: real -> real, st: QM.QMState<X>)
    requires Consistent(p) && IsSqrt(sqrt) && QM.Valid(p, st) && !st.kind.Entropy?
    ensures LegacyStep(p, sqrt, st).next == QM.Step(p, sqrt, st).next
    ensures LegacyStep(p, sqrt, st).raised == QM.Step(p, sqrt, st).raised
    ensures QM.Step(p, sqrt, st).notices[0].lambda == st.lambda
    ensures LegacyStep(p, sqrt, st).raised.None? ==>
              LegacyStep(p, sqrt, st).notices[0].lambda == QM.Step(p, sqrt, st).next.lambda
  {
    if st.kind.DSA? {
      assert QM.Step(p, sqrt, st) == QM.DSAStep(p, sqrt, st);
    } else {
      assert QM.Step(p, sqrt, st) == QM.TAStep(p, sqrt, st);
    }
  }

  /** `n` consecutive legacy steps, ending early at the first step that raises. */
  function LegacyRun<X>(p: Problem<X>, sqrt: real -> real, st: QM.QMState<X>, n: nat): (r: Stepped<QM.QMState<X>, X>)
    requires Consistent(p) && IsSqrt(sqrt) && QM.Valid(p, st) && !st.kind.Entropy?
    ensures QM.Valid(p, r.next) && r.next.kind == st.kind && r.next.gamma == st.gamma
    decreases n
  {
    if n == 0 then Stepped(st, [], None)
    else
      var r := LegacyStep(p, sqrt, st);
      if r.raised.Some? then r
      else
        var rest := LegacyRun(p, sqrt, r.next, n - 1);
        Stepped(rest.next, r.notices + rest.notices, rest.raised)
  }

  /**
   * Over a legacy run each notification pairs the iterate it shows with the
   * value of the iterate shown one notification earlier (the first with the
   * starting point's value), and the k-th shows call count `calls0 + k + 1`.
   */
  ghost predicate PairsWithPrevious<X>(p: Problem<X>, start: Vec, notices: seq<View<X>>, calls0: nat) {
    && (forall k :: 0 <= k < |notices| ==> notices[k].DualView? && notices[k].oracleCalls == calls0 + k + 1)
    && (forall k :: 0 <= k < |notices| ==> PairedAt(p, start, notices, k))
  }

  /** Notification `k` carries the value of the iterate shown just before it. */
  ghost predicate PairedAt<X>(p: Problem<X>, start: Vec, notices: seq<View<X>>, k: nat)
    requires k < |notices|
  {
    notices[k].DualView? &&
    if k == 0 then notices[0].d == p.oracle(start).d
    else notices[k - 1].DualView? && notices[k].d == p.oracle(notices[k - 1].lambda).d
  }

  /** Prefixing a notice for the step from `start` keeps the pairing. */
  lemma PairsCons<X>(p: Problem<X>, start: Vec, v: View<X>, rest: seq<View<X>>, calls0: nat)
    requires v.DualView? && v.oracleCalls == calls0 + 1 && v.d == p.oracle(start).d
    requires PairsWithPrevious(p, v.lambda, rest, calls0 + 1)
    ensures PairsWithPrevious(p, start, [v] + rest, calls0)
  {
    var all := [v] + rest;
    forall k | 0 < k < |all|
      ensures PairedAt(p, start, all, k)
    {
      assert all[k] == rest[k - 1] && PairedAt(p, v.lambda, rest, k - 1);
      if k > 1 {
        assert all[k - 1] == rest[k - 2];
      }
    }
  }

  /**
   * A legacy run notifies once per completed step and never for a step that
   * raises; a run that raises does so at its first step, exactly when the
   * configuration is bad, after one oracle call.
   */
  lemma {:induction false} LegacyRunAccounting<X>(p: Problem<X>, sqrt: real -> real, st: QM.QMState<X>, n: nat)
    requires Consistent(p) && IsSqrt(sqrt) && QM.Valid(p, st) && !st.kind.Entropy?
    ensures n > 0 ==> (LegacyRun(p, sqrt, st, n).raised.Some? <==> QM.BadConfig(st.kind, st.gamma))
    ensures LegacyRun(p, sqrt, st, n).raised.Some? ==>
              LegacyRun(p, sqrt, st, n).notices == [] && LegacyRun(p, sqrt, st, n).next.oracleCalls == st.oracleCalls + 1
    ensures LegacyRun(p, sqrt, st, n).raised.None? ==>
              |LegacyRun(p, sqrt, st, n).notices| == n
              && LegacyRun(p, sqrt, st, n).next.oracleCalls == st.oracleCalls + n
              && (n > 0 ==> LegacyRun(p, sqrt, st, n).notices[n - 1] == ShownAfter(LegacyRun(p, sqrt, st, n).next))
    decreases n
  {
    if n > 0 {
      var r := LegacyStep(p, sqrt, st);
      if r.raised.None? {
        LegacyRunAccounting(p, sqrt, r.next, n - 1);
        var rest := LegacyRun(p, sqrt, r.next, n - 1);
        assert LegacyRun(p, sqrt, st, n) == Stepped(rest.next, r.notices + rest.notices, rest.raised);
        assert !QM.BadConfig(r.next.kind, r.next.gamma);
      }
    }
  }

  /**
   * Every notification of a legacy run is one iterate out of step with its
   * value: it shows the iterate a step computed next to the value the
   * oracle returned at the iterate shown before it (for the first
   * notification, at the starting point).
   */
  lemma {:induction false} LegacyRunPairsWithPrevious<X>(p: Problem<X>, sqrt: real -> real, st: QM.QMState<X>, n: nat)
    requires Consistent(p) && IsSqrt(sqrt) && QM.Valid(p, st) && !st.kind.Entropy?
    ensures PairsWithPrevious(p, st.lambda, LegacyRun(p, sqrt, st, n).notices, st.oracleCalls)
    decreases n
  {
    if n > 0 {
      var r := LegacyStep(p, sqrt, st);
      if r.raised.None? {
        LegacyRunPairsWithPrevious(p, sqrt, r.next, n - 1);
        var rest := LegacyRun(p, sqrt, r.next, n - 1);
        assert LegacyRun(p, sqrt, st, n).notices == r.notices + rest.notices;
        PairsCons(p, st.lambda, r.notices[0], rest.notices, st.oracleCalls);
      }
    }
  }
}
