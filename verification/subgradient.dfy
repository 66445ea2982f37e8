/**
 * The projected subgradient method: one oracle call per step at the current
 * multipliers, a notification while the method still shows that point, and
 * then the projected ascent step `lambda := P(lambda + s_k * g_k)`.
 */
module Subgradient {
  import opened Wrappers
  import opened Vectors
  import opened Protocol
  import opened MethodLoggers

  /**
   * The method's state: its step-size rule and `stepsize_0`, the display
   * name the rule selects, the counters, and the current iterate with the
   * oracle's last answer (`x_k` is absent until the first oracle call).
   */
  datatype SGState<X> = SGState(rule: string, s0: real, name: string,
                                 iteration: nat, oracleCalls: nat,
                                 lambda: Vec, d: real, x: Option<X>)

  /** The invariant every state reachable from the constructor keeps. */
  predicate Valid<X>(p: Problem<X>, s: SGState<X>) {
    s.iteration >= 1 && |s.lambda| == p.dim
  }

  /**
   * The constructor with an explicit dimension: the first iterate is the
   * projection of the origin, and both counters start from the beginning.
   */
  function NewSG<X>(p: Problem<X>, rule: string, s0: real): (s: SGState<X>)
    requires Consistent(p)
    ensures Valid(p, s) && s.iteration == 1 && s.oracleCalls == 0
    ensures s.lambda == p.project(Zeros(p.dim)) && s.d == 0.0 && s.x.None?
    ensures s.rule == rule && s.s0 == s0 && s.name == "SG"
    ensures Idempotent(p.project) ==> Feasible(p.project, s.lambda)
  {
    SGState(rule, s0, "SG", 1, 0, p.project(Zeros(p.dim)), 0.0, None)
  }

  /**
   * The step size of the `iteration`-th step: `s_0 / k` under rule "1/k",
   * and `s_0` under "constant" or any rule the method does not recognise.
   */
  function Stepsize(rule: string, s0: real, iteration: nat): (r: real)
    requires iteration >= 1
    ensures rule == "1/k" ==> r * (iteration as real) == s0
    ensures rule != "1/k" ==> r == s0
    ensures iteration == 1 ==> r == s0
  {
    if rule == "1/k" then s0 / (iteration as real) else s0
  }

  /** A non-negative initial step never grows from one step to the next, and "1/k" strictly shrinks a positive one. */
  lemma StepsizeNeverGrows(rule: string, s0: real, k: nat)
    requires k >= 1 && s0 >= 0.0
    ensures 0.0 <= Stepsize(rule, s0, k + 1) <= Stepsize(rule, s0, k) <= s0
    ensures rule == "1/k" && s0 > 0.0 ==> Stepsize(rule, s0, k + 1) < Stepsize(rule, s0, k)
  {
    if rule == "1/k" {
      var a := Stepsize(rule, s0, k);
      var b := Stepsize(rule, s0, k + 1);
      assert a == s0 / (k as real) && b == s0 / ((k + 1) as real);
      assert a >= 0.0 && b >= 0.0;
      assert a * (k as real) == s0 && b * ((k + 1) as real) == s0;
      assert a * (k as real) - a == a * ((k - 1) as real) >= 0.0;
      assert b * (k as real) + b == a * (k as real);
    }
  }

  /** The display name after a step: the two recognised rules rename the method, any other rule leaves it. */
  function Renamed(rule: string, name: string): (r: string)
    ensures rule == "1/k" ==> r == "SG 1/k"
    ensures rule == "constant" ==> r == "SG const"
    ensures rule != "1/k" && rule != "constant" ==> r == name
  {
    if rule == "1/k" then "SG 1/k" else if rule == "constant" then "SG const" else name
  }

  /**
   * `dual_step`: query the oracle at the current iterate, notify while the
   * method shows that iterate with its value and the call count before this
   * call, then count the call and take the projected ascent step.
   */
  function Step<X>(p: Problem<X>, s: SGState<X>): (r: Stepped<SGState<X>, X>)
    requires Consistent(p) && Valid(p, s)
    ensures Valid(p, r.next) && r.raised.None?
    ensures var a := p.oracle(s.lambda);
            && r.notices == [DualView(s.lambda, a.d, Some(a.x), s.oracleCalls, NoExtras)]
            && r.next.lambda == p.project(Add(s.lambda, Scale(Stepsize(s.rule, s.s0, s.iteration), a.g)))
            && r.next.d == a.d && r.next.x == Some(a.x)
    ensures r.next.iteration == s.iteration + 1 && r.next.oracleCalls == s.oracleCalls + 1
    ensures r.next.rule == s.rule && r.next.s0 == s.s0 && r.next.name == Renamed(s.rule, s.name)
    ensures Idempotent(p.project) ==> Feasible(p.project, r.next.lambda)
  {
    var a := p.oracle(s.lambda);
    var seen := DualView(s.lambda, a.d, Some(a.x), s.oracleCalls, NoExtras);
    var step := Stepsize(s.rule, s.s0, s.iteration);
    var next := SGState(s.rule, s.s0, Renamed(s.rule, s.name), s.iteration + 1, s.oracleCalls + 1,
                        p.project(Add(s.lambda, Scale(step, a.g))), a.d, Some(a.x));
    Stepped(next, [seen], None)
  }

  /** `n` consecutive steps: the final state and every notification, in order. */
  function Run<X>(p: Problem<X>, s: SGState<X>, n: nat): (r: (SGState<X>, seq<View<X>>))
    requires Consistent(p) && Valid(p, s)
    ensures Valid(p, r.0) && r.0.rule == s.rule && r.0.s0 == s.s0 && |r.1| == n
    decreases n
  {
    if n == 0 then (s, [])
    else
      var st := Step(p, s);
      var rest := Run(p, st.next, n - 1);
      (rest.0, st.notices + rest.1)
  }

  /**
   * Over `n` steps: the iteration counter and the oracle-call counter each
   * advance by exactly `n`; there is one notification per step; the k-th
   * shows the call count `k` calls in, pairs the iterate it shows with that
   * iterate's own oracle value and primal point, and is followed by the
   * projected ascent step with the k-th step size.
   */
  lemma {:induction false} RunCountsAndPairs<X>(p: Problem<X>, s: SGState<X>, n: nat)
    requires Consistent(p) && Valid(p, s)
    ensures var (last, notices) := Run(p, s, n);
            && last.iteration == s.iteration + n && last.oracleCalls == s.oracleCalls + n
            && |notices| == n && AllDual(notices)
            && (n > 0 ==> notices[0].lambda == s.lambda)
            && (forall k :: 0 <= k < n ==>
                  && notices[k].oracleCalls == s.oracleCalls + k
                  && |notices[k].lambda| == p.dim
                  && notices[k].d == p.oracle(notices[k].lambda).d
                  && notices[k].primal == Some(p.oracle(notices[k].lambda).x))
            && (forall k :: 0 <= k < n - 1 ==>
                  notices[k + 1].lambda
                  == p.project(Add(notices[k].lambda,
                                   Scale(Stepsize(s.rule, s.s0, s.iteration + k), p.oracle(notices[k].lambda).g))))
    decreases n
  {
    if n > 0 {
      var st := Step(p, s);
      RunCountsAndPairs(p, st.next, n - 1);
      var notices := Run(p, s, n).1;
      var rest := Run(p, st.next, n - 1).1;
      assert notices == st.notices + rest;
      assert forall k :: 1 <= k < n ==> notices[k] == rest[k - 1];
      if n > 1 {
        assert notices[1].lambda == st.next.lambda;
      }
    }
  }

  /**
   * With an idempotent projection and a feasible start, every iterate the
   * method ever shows, and the one it ends on, lies in the dual domain.
   */
  lemma {:induction false} RunStaysFeasible<X>(p: Problem<X>, s: SGState<X>, n: nat)
    requires Consistent(p) && Valid(p, s) && Idempotent(p.project) && Feasible(p.project, s.lambda)
    ensures Feasible(p.project, Run(p, s, n).0.lambda)
    ensures forall k :: 0 <= k < |Run(p, s, n).1| ==>
              Run(p, s, n).1[k].DualView? && Feasible(p.project, Run(p, s, n).1[k].lambda)
    decreases n
  {
    if n > 0 {
      var st := Step(p, s);
      RunStaysFeasible(p, st.next, n - 1);
      var notices := Run(p, s, n).1;
      var rest := Run(p, st.next, n - 1).1;
      assert notices == st.notices + rest;
      forall k | 0 <= k < |notices|
        ensures notices[k].DualView? && Feasible(p.project, notices[k].lambda)
      {
        if k == 0 {
          assert notices[0] == st.notices[0] && st.notices[0].lambda == s.lambda;
        } else {
          assert notices[k] == rest[k - 1];
        }
      }
    }
  }

  /** `k` equal strides of length `c` from `base`. */
  function March(base: real, c: real, k: nat): real {
    if k == 0 then base else March(base, c, k - 1) + c
  }

  /** Starting one stride further on is taking one more stride. */
  lemma {:induction false} MarchShift(base: real, c: real, k: nat)
    ensures March(base + c, c, k) == March(base, c, k + 1)
  {
    if k > 0 {
      MarchShift(base, c, k - 1);
    }
  }

  /** The closed form of the march: `k` strides of `c` cover `k * c`. */
  lemma {:induction false} MarchClosedForm(base: real, c: real, k: nat)
    ensures March(base, c, k) == base + (k as real) * c
  {
    if k > 0 {
      MarchClosedForm(base, c, k - 1);
      assert ((k - 1) as real) * c + c == (k as real) * c;
    }
  }

  /**
   * A one-dimensional problem whose oracle answers `(x0, d0, [g0])`
   * everywhere and whose projection is the identity.
   */
  ghost predicate ConstantLine<X>(p: Problem<X>, x0: X, d0: real, g0: real) {
    && p.dim == 1
    && (forall v: Vec :: p.project(v) == v)
    && (forall v: Vec :: p.oracle(v) == OracleAnswer(x0, d0, [g0]))
  }

  /** One step on a constant line under a non-"1/k" rule moves by exactly `s_0 * g0`. */
  lemma ConstantStep<X>(p: Problem<X>, s: SGState<X>, x0: X, d0: real, g0: real)
    requires ConstantLine(p, x0, d0, g0) && Consistent(p) && Valid(p, s) && s.rule != "1/k"
    ensures var st := Step(p, s);
            && st.notices == [DualView([s.lambda[0]], d0, Some(x0), s.oracleCalls, NoExtras)]
            && st.next.lambda == [s.lambda[0] + s.s0 * g0]
            && st.next.s0 == s.s0 && st.next.rule == s.rule && st.next.oracleCalls == s.oracleCalls + 1
            && st.next.x == Some(x0) && st.next.d == d0
  {
    assert s.lambda == [s.lambda[0]];
    assert p.oracle(s.lambda) == OracleAnswer(x0, d0, [g0]);
    var a := Add(s.lambda, Scale(s.s0, [g0]));
    assert |a| == 1 && a[0] == s.lambda[0] + s.s0 * g0;
    assert a == [s.lambda[0] + s.s0 * g0];
    assert p.project(a) == a;
  }

  /**
   * On a constant line, under any rule but "1/k", the iterates march in
   * equal strides of `s_0 * g0`, and every notification shows the constant
   * oracle answer.
   */
  lemma {:induction false} ConstantRuleMarches<X>(p: Problem<X>, s: SGState<X>, n: nat, x0: X, d0: real, g0: real)
    requires ConstantLine(p, x0, d0, g0) && Consistent(p) && Valid(p, s) && s.rule != "1/k"
    ensures Run(p, s, n).0.lambda == [March(s.lambda[0], s.s0 * g0, n)]
    ensures n > 0 ==> Run(p, s, n).0.x == Some(x0) && Run(p, s, n).0.d == d0
    ensures var notices := Run(p, s, n).1;
            |notices| == n
            && forall k :: 0 <= k < n ==> notices[k] == DualView([March(s.lambda[0], s.s0 * g0, k)], d0, Some(x0),
                                                                  s.oracleCalls + k, NoExtras)
    decreases n
  {
    var c := s.s0 * g0;
    if n == 0 {
      assert s.lambda == [s.lambda[0]];
    } else {
      var st := Step(p, s);
      var t := st.next;
      ConstantStep(p, s, x0, d0, g0);
      ConstantRuleMarches(p, t, n - 1, x0, d0, g0);
      var notices := Run(p, s, n).1;
      var rest := Run(p, t, n - 1).1;
      assert Run(p, s, n) == (Run(p, t, n - 1).0, st.notices + rest);
      assert t.lambda[0] == s.lambda[0] + c && t.s0 * g0 == c;
      forall k | 0 <= k < n
        ensures notices[k] == DualView([March(s.lambda[0], c, k)], d0, Some(x0), s.oracleCalls + k, NoExtras)
      {
        if k > 0 {
          assert notices[k] == rest[k - 1];
          assert rest[k - 1] == DualView([March(s.lambda[0] + c, c, k - 1)], d0, Some(x0), t.oracleCalls + (k - 1), NoExtras);
          MarchShift(s.lambda[0], c, k - 1);
        }
      }
      assert Run(p, t, n - 1).0.lambda == [March(s.lambda[0] + c, c, n - 1)];
      MarchShift(s.lambda[0], c, n - 1);
    }
  }

  /** The one-dimensional mock problem: `x = 1.1`, `d = 1.2`, `g = 1.3` everywhere, identity projection. */
  function MockProblem(): (p: Problem<real>)
    ensures Consistent(p) && ConstantLine(p, 1.1, 1.2, 1.3)
  {
    Problem((v: Vec) => OracleAnswer(1.1, 1.2, [1.3]), (v: Vec) => v, 1)
  }

  /** The notifications of six constant steps of size 1.5 on the mock problem. */
  function MockNotices(): seq<View<real>> {
    [DualView([0.0], 1.2, Some(1.1), 0, NoExtras), DualView([1.95], 1.2, Some(1.1), 1, NoExtras),
     DualView([3.9], 1.2, Some(1.1), 2, NoExtras), DualView([5.85], 1.2, Some(1.1), 3, NoExtras),
     DualView([7.8], 1.2, Some(1.1), 4, NoExtras), DualView([9.75], 1.2, Some(1.1), 5, NoExtras)]
  }

  /**
   * Six constant steps of size 1.5 on the mock problem show the iterates
   * 0, 1.95, 3.9, 5.85, 7.8, 9.75, each with `x = 1.1` and `d = 1.2`, and
   * the method ends showing `x = 1.1` and `d = 1.2`.
   */
  lemma MockRunIterates()
    ensures var (last, notices) := Run(MockProblem(), NewSG(MockProblem(), "constant", 1.5), 6);
            last.x == Some(1.1) && last.d == 1.2 && notices == MockNotices()
  {
    var p := MockProblem();
    var s := NewSG(p, "constant", 1.5);
    assert s.lambda == [0.0];
    ConstantRuleMarches(p, s, 6, 1.1, 1.2, 1.3);
    assert March(0.0, 1.95, 5) == 9.75;
  }

  /** A generic logger shown those six notifications records exactly their iterates, values and primal points. */
  lemma MockRunRecorded(times: seq<real>)
    requires |times| == 6
    ensures Feed(GenericLogger([], [], []), MockNotices(), times)
            == Success(GenericLogger([[0.0], [1.95], [3.9], [5.85], [7.8], [9.75]],
                                     [1.2, 1.2, 1.2, 1.2, 1.2, 1.2],
                                     [Some(1.1), Some(1.1), Some(1.1), Some(1.1), Some(1.1), Some(1.1)]))
  {
    MockColumns();
    FreshGenericRecords(MockNotices(), times);
  }

  /** A fresh generic logger ends up holding exactly the columns of the notifications it was shown. */
  lemma FreshGenericRecords<X>(notices: seq<View<X>>, times: seq<real>)
    requires |times| == |notices| && AllDual(notices)
    ensures Feed(GenericLogger([], [], []), notices, times)
            == Success(GenericLogger(Lambdas(notices), Values(notices), Primals(notices)))
  {
    GenericRecordsEveryNotice([], [], [], notices, times);
    assert [] + Lambdas(notices) == Lambdas(notices);
    assert [] + Values(notices) == Values(notices);
    assert [] + Primals(notices) == Primals(notices);
  }

  /** The columns a logger extracts from the six mock notifications. */
  lemma MockColumns()
    ensures Lambdas(MockNotices()) == [[0.0], [1.95], [3.9], [5.85], [7.8], [9.75]]
    ensures Values(MockNotices()) == [1.2, 1.2, 1.2, 1.2, 1.2, 1.2]
    ensures Primals(MockNotices()) == [Some(1.1), Some(1.1), Some(1.1), Some(1.1), Some(1.1), Some(1.1)]
  {
    var notices := MockNotices();
    assert AllDual(notices);
    MockLambdas(notices);
    MockValues(notices);
    MockPrimals(notices);
  }

  lemma MockLambdas(notices: seq<View<real>>)
    requires notices == MockNotices() && AllDual(notices)
    ensures Lambdas(notices) == [[0.0], [1.95], [3.9], [5.85], [7.8], [9.75]]
  {
    assert |Lambdas(notices)| == 6;
  }

  lemma MockValues(notices: seq<View<real>>)
    requires notices == MockNotices() && AllDual(notices)
    ensures Values(notices) == [1.2, 1.2, 1.2, 1.2, 1.2, 1.2]
  {
    assert |Values(notices)| == 6;
  }

  lemma MockPrimals(notices: seq<View<real>>)
    requires notices == MockNotices() && AllDual(notices)
    ensures Primals(notices) == [Some(1.1), Some(1.1), Some(1.1), Some(1.1), Some(1.1), Some(1.1)]
  {
    assert |Primals(notices)| == 6;
  }

  /**
   * An enhanced logger attached before the first of `n` steps last records
   * the call count `n - 1`: each notification precedes its step's count.
   */
  lemma EnhancedSeesCountBeforeIncrement<X>(p: Problem<X>, rule: string, s0: real, n: nat, times: seq<real>)
    requires Consistent(p) && n >= 1 && |times| == n
    ensures var r := Feed(NewLogger(EnhancedKind), Run(p, NewSG(p, rule, s0), n).1, times);
            r.Success? && r.value.EnhancedLogger? && |r.value.oracleCalls| == n
            && r.value.oracleCalls[n - 1] == n - 1
  {
    var s := NewSG(p, rule, s0);
    var notices := Run(p, s, n).1;
    RunCountsAndPairs(p, s, n);
    EnhancedRecordsCallCounts([], [], [], 0.0, [], [], notices, times);
    assert [] + CallCounts(notices) == CallCounts(notices);
  }
}
