/**
 * Kelley's cutting-planes method and the proximal bundle method. Both keep
 * a bundle of affine minorants ("cuts") of `-d`, one per oracle answer, and
 * hand it to an LP/QP solver; the solver itself is an abstract parameter
 * that receives the whole model and returns an objective value and a
 * point. Once a method declares its gap closed, every later step only
 * advances the iteration counter and notifies.
 */
module Bundle {
  import opened Wrappers
  import opened Vectors
  import opened Protocol

  /** `DEFAULT_EPSILON`, the gap below which a method stops. */
  const DefaultEpsilon: real := 0.01

  /** `DEFAULT_MU`, the bundle method's proximal weight. */
  const DefaultMu: real := 0.5

  /** `SEARCH_BOX_MIN` and `SEARCH_BOX_MAX`, the cutting-planes variable bounds. */
  const SearchBoxMin: real := -10.0
  const SearchBoxMax: real := 10.0

  /** The bundle method's `gamma`: the fraction of `epsilon` a serious step must gain. */
  const SeriousFraction: real := 0.5

  // ----------------------------------------------------------------------
  // Cuts, dual-domain rows and the solver's model
  // ----------------------------------------------------------------------

  /** The cut `r >= <a, lambda> + b`, an affine minorant of `-d`. */
  datatype Cut = Cut(a: Vec, b: real)

  /** The value of a cut at a point. */
  function CutValue(c: Cut, v: Vec): real
    requires |c.a| == |v|
  {
    Dot(c.a, v) + c.b
  }

  /** The cut built from the oracle's answer at `lambda`: `a = -g`, `b = -d - <-g, lambda>`. */
  function CutAt<X>(lambda: Vec, ans: OracleAnswer<X>): (c: Cut)
    requires |ans.g| == |lambda|
    ensures |c.a| == |lambda|
    ensures CutValue(c, lambda) == -ans.d
  {
    Cut(Neg(ans.g), -ans.d - Dot(Neg(ans.g), lambda))
  }

  /**
   * The cut at `lambda` is the linearisation of `-d` there: at any point `v`
   * its value is `-d(lambda) - <g, v - lambda>`.
   */
  lemma CutIsLinearisation<X>(lambda: Vec, ans: OracleAnswer<X>, v: Vec)
    requires |ans.g| == |lambda| == |v|
    ensures CutValue(CutAt(lambda, ans), v) == -ans.d - Dot(ans.g, Sub(v, lambda))
  {
    DotNegLeft(ans.g, v);
    DotNegLeft(ans.g, lambda);
    DotSubRight(ans.g, v, lambda);
  }

  /** A constraint `set_dual_domain` adds to the solver's model. */
  datatype DomainRow =
    | AtLeastZero(i: nat)          // lambda_i >= 0
    | SumIs(total: real)           // sum_i lambda_i == total
    | Opposite(i: nat, j: nat)     // lambda_i + lambda_j == 0

  /** Whether a point of the problem's dimension satisfies a row. */
  predicate Satisfies(v: Vec, row: DomainRow) {
    match row
    case AtLeastZero(i) => i < |v| && v[i] >= 0.0
    case SumIs(total) => Sum(v) == total
    case Opposite(i, j) => i < |v| && j < |v| && v[i] + v[j] == 0.0
  }

  /**
   * The rows `set_dual_domain(type, param)` adds for a problem of dimension
   * `dim`. An unknown type adds nothing: the `ValueError` is built but never
   * raised.
   */
  function DomainRows(kind: string, param: real, dim: nat): (rows: seq<DomainRow>)
    requires kind != "2 stage smps"
    ensures kind == "free" ==> rows == []
    ensures kind == "positive orthant" ==> |rows| == dim
    ensures kind == "sum to param" ==> |rows| == 1
    ensures kind == "mrf" ==> |rows| == dim / 2
    ensures kind !in {"free", "positive orthant", "sum to param", "mrf"} ==> rows == []
  {
    if kind == "positive orthant" then seq(dim, i requires 0 <= i < dim => AtLeastZero(i))
    else if kind == "sum to param" then [SumIs(param)]
    else if kind == "mrf" then seq(dim / 2, i requires 0 <= i < dim / 2 => Opposite(i, i + dim / 2))
    else []
  }

  /** A point satisfies every row of a sequence. */
  predicate SatisfiesAll(v: Vec, rows: seq<DomainRow>) {
    forall k :: 0 <= k < |rows| ==> Satisfies(v, rows[k])
  }

  /** The domain types `set_dual_domain` recognises, "2 stage smps" aside. */
  const KnownDomains: set<string> := {"free", "positive orthant", "sum to param", "mrf"}

  /**
   * As written, a misspelt domain type (here "positive" for "positive
   * orthant") adds no row and raises nothing, so the method goes on to
   * search the unconstrained space.
   */
  lemma MisspeltDomainIsSilent(param: real, dim: nat)
    ensures "positive" !in KnownDomains
    ensures DomainRows("positive", param, dim) == []
  {
  }

  /**
   * The rows with the evident intent restored: an unrecognised type raises
   * `ValueError`, and a recognised one adds the rows above.
   */
  function CheckedDomainRows(kind: string, param: real, dim: nat): (r: Result<seq<DomainRow>, Error>)
    requires kind != "2 stage smps"
    ensures r.Failure? <==> kind !in KnownDomains
    ensures r.Failure? ==> r.error == ValueError
    ensures r.Success? ==> r.value == DomainRows(kind, param, dim)
  {
    if kind in KnownDomains then Success(DomainRows(kind, param, dim)) else Failure(ValueError)
  }

  /** Adding rows to a model intersects its feasible set with theirs. */
  lemma {:induction false} SatisfiesAllAppend(v: Vec, old_: seq<DomainRow>, added: seq<DomainRow>)
    ensures SatisfiesAll(v, old_ + added) <==> SatisfiesAll(v, old_) && SatisfiesAll(v, added)
  {
    var all := old_ + added;
    if SatisfiesAll(v, old_) && SatisfiesAll(v, added) {
      forall k | 0 <= k < |all|
        ensures Satisfies(v, all[k])
      {
        if k < |old_| {
          assert all[k] == old_[k];
        } else {
          assert all[k] == added[k - |old_|];
        }
      }
    }
    if SatisfiesAll(v, all) {
      forall k | 0 <= k < |old_|
        ensures Satisfies(v, old_[k])
      {
        assert all[k] == old_[k];
      }
      forall k | 0 <= k < |added|
        ensures Satisfies(v, added[k])
      {
        assert all[|old_| + k] == added[k];
      }
    }
  }

  /** The "free" domain constrains nothing. */
  lemma FreeDomainMeaning(param: real, v: Vec)
    ensures SatisfiesAll(v, DomainRows("free", param, |v|))
  {
  }

  /** The "positive orthant" domain is the points with non-negative coordinates. */
  lemma OrthantDomainMeaning(param: real, v: Vec)
    ensures SatisfiesAll(v, DomainRows("positive orthant", param, |v|)) <==> forall i :: 0 <= i < |v| ==> v[i] >= 0.0
  {
    var rows := DomainRows("positive orthant", param, |v|);
    assert forall i :: 0 <= i < |v| ==> rows[i] == AtLeastZero(i);
    if SatisfiesAll(v, rows) {
      forall i | 0 <= i < |v|
        ensures v[i] >= 0.0
      {
        assert Satisfies(v, rows[i]);
      }
    }
  }

  /** The "sum to param" domain is the points whose coordinates sum to `param`. */
  lemma SumDomainMeaning(param: real, v: Vec)
    ensures SatisfiesAll(v, DomainRows("sum to param", param, |v|)) <==> Sum(v) == param
  {
    var rows := DomainRows("sum to param", param, |v|);
    assert rows == [SumIs(param)];
    if SatisfiesAll(v, rows) {
      assert Satisfies(v, rows[0]);
    }
  }

  /**
   * The "mrf" domain makes each coordinate of the first half the negative
   * of its partner in the second half (a trailing odd coordinate is free).
   */
  lemma MrfDomainMeaning(param: real, v: Vec)
    ensures SatisfiesAll(v, DomainRows("mrf", param, |v|)) <==>
            forall i :: 0 <= i < |v| / 2 ==> v[i] + v[i + |v| / 2] == 0.0
  {
    var rows := DomainRows("mrf", param, |v|);
    assert forall i :: 0 <= i < |v| / 2 ==> rows[i] == Opposite(i, i + |v| / 2);
    if SatisfiesAll(v, rows) {
      forall i | 0 <= i < |v| / 2
        ensures v[i] + v[i + |v| / 2] == 0.0
      {
        assert Satisfies(v, rows[i]);
      }
    }
  }

  /**
   * The solver's model: `dim` variables, optionally boxed, the domain rows,
   * one constraint per cut, and the objective `r` plus, for the bundle
   * method, the proximal term `mu/2 ||lambda - centre||^2`.
   */
  datatype LpModel = LpModel(dim: nat, box: Option<(real, real)>, rows: seq<DomainRow>,
                             cuts: seq<Cut>, prox: Option<(real, Vec)>)

  /** What `min_of_bundle` returns: `ObjVal` and the optimal `lambda`. */
  datatype Solution = Solution(value: real, point: Vec)

  /** The only thing the methods rely on from the solver: it returns a point of the model's dimension. */
  ghost predicate SolverConsistent(solve: LpModel -> Solution) {
    forall m: LpModel :: |solve(m).point| == m.dim
  }

  /** What an observer sees: the iterate, the last oracle answer and the call count. */
  function ViewOf<X>(lambda: Vec, d: real, x: Option<X>, calls: nat): View<X> {
    DualView(lambda, d, x, calls, NoExtras)
  }

  // ----------------------------------------------------------------------
  // Cutting planes
  // ----------------------------------------------------------------------

  /**
   * The public state of `CuttingPlanesMethod`. `fHat` is the last model
   * value, `None` standing for the initial `-inf`; `searching` is
   * `optimizer_not_yet_found`.
   */
  datatype CPState<X> = CPState(epsilon: real, iteration: nat, oracleCalls: nat, searching: bool,
                                lambda: Vec, d: real, x: Option<X>, fHat: Option<real>,
                                cuts: seq<Cut>, rows: seq<DomainRow>)

  /** The iterate has the problem's dimension and every cut's slope too. */
  predicate CPValid<X>(p: Problem<X>, st: CPState<X>) {
    |st.lambda| == p.dim && forall k :: 0 <= k < |st.cuts| ==> |st.cuts[k].a| == p.dim
  }

  /** The constructor: iteration 1, no calls, the projected origin, an empty bundle and `f_hat = -inf`. */
  function NewCP<X>(p: Problem<X>, epsilon: real): (st: CPState<X>)
    requires Consistent(p)
    ensures CPValid(p, st) && st.searching && st.fHat.None? && st.cuts == [] && st.rows == []
    ensures st.iteration == 1 && st.oracleCalls == 0 && st.lambda == p.project(Zeros(p.dim))
  {
    CPState(epsilon, 1, 0, true, p.project(Zeros(p.dim)), 0.0, None, None, [], [])
  }

  /** The cutting-planes LP: the search box, the domain rows and the bundle, minimising `r`. */
  function CPModel<X>(p: Problem<X>, rows: seq<DomainRow>, cuts: seq<Cut>): LpModel {
    LpModel(p.dim, Some((SearchBoxMin, SearchBoxMax)), rows, cuts, None)
  }

  /** Step 4's test: the gap `-d_k - f_hat` is below `epsilon`; it never is while `f_hat = -inf`. */
  predicate GapClosed(fHat: Option<real>, d: real, epsilon: real) {
    fHat.Some? && -d - fHat.value < epsilon
  }

  /**
   * A model's rows after `set_dual_domain(type, param)`: the type's rows are
   * appended, so the model admits exactly the earlier points that also
   * satisfy the new domain, and an unknown type leaves the rows as they were.
   */
  function WithDomain(rows: seq<DomainRow>, kind: string, param: real, dim: nat): (r: seq<DomainRow>)
    requires kind != "2 stage smps"
    ensures |rows| <= |r| && r[..|rows|] == rows
    ensures kind !in KnownDomains ==> r == rows
    ensures forall v: Vec :: SatisfiesAll(v, r) <==> SatisfiesAll(v, rows) && SatisfiesAll(v, DomainRows(kind, param, dim))
  {
    var added := DomainRows(kind, param, dim);
    forall v: Vec
      ensures SatisfiesAll(v, rows + added) <==> SatisfiesAll(v, rows) && SatisfiesAll(v, added)
    {
      SatisfiesAllAppend(v, rows, added);
    }
    assert (rows + added)[..|rows|] == rows;
    rows + added
  }

  /**
   * `set_dual_domain` on a cutting-planes method, as written: the type's
   * rows join the model and nothing else changes; an unknown type changes
   * nothing at all and raises nothing.
   */
  function CPSetDualDomain<X>(p: Problem<X>, st: CPState<X>, kind: string, param: real): (r: CPState<X>)
    requires kind != "2 stage smps"
    ensures r == st.(rows := r.rows)
    ensures kind !in KnownDomains ==> r == st
    ensures forall v: Vec ::
              SatisfiesAll(v, r.rows) <==> SatisfiesAll(v, st.rows) && SatisfiesAll(v, DomainRows(kind, param, p.dim))
  {
    st.(rows := WithDomain(st.rows, kind, param, p.dim))
  }

  /**
   * One `CuttingPlanesMethod.dual_step`. While searching: query the oracle
   * at the iterate; stop if the gap is closed, otherwise append the cut and
   * take the model value and the next iterate from the solver. Always
   * advance the iteration and notify once, showing the new iterate next to
   * the value at the one just queried.
   */
  function CPStep<X>(p: Problem<X>, solve: LpModel -> Solution, st: CPState<X>): (r: Stepped<CPState<X>, X>)
    requires Consistent(p) && SolverConsistent(solve) && CPValid(p, st)
    ensures CPValid(p, r.next) && r.raised.None? && r.next.iteration == st.iteration + 1
    ensures r.notices == [ViewOf(r.next.lambda, r.next.d, r.next.x, r.next.oracleCalls)]
    ensures r.next.epsilon == st.epsilon && r.next.rows == st.rows && st.cuts <= r.next.cuts
    ensures !st.searching ==> r.next == st.(iteration := st.iteration + 1)
    ensures st.searching ==>
              && r.next.oracleCalls == st.oracleCalls + 1
              && r.next.d == p.oracle(st.lambda).d
              && (r.next.searching <==> !GapClosed(st.fHat, p.oracle(st.lambda).d, st.epsilon))
    ensures st.searching && !r.next.searching ==> r.next.cuts == st.cuts && r.next.lambda == st.lambda
    ensures r.next.searching ==>
              && r.next.cuts == st.cuts + [CutAt(st.lambda, p.oracle(st.lambda))]
              && r.next.fHat == Some(solve(CPModel(p, st.rows, r.next.cuts)).value)
              && r.next.lambda == solve(CPModel(p, st.rows, r.next.cuts)).point
  {
    var s1 :=
      if !st.searching then st
      else
        var ans := p.oracle(st.lambda);
        var q := st.(x := Some(ans.x), d := ans.d, oracleCalls := st.oracleCalls + 1);
        if GapClosed(st.fHat, ans.d, st.epsilon) then q.(searching := false)
        else
          var cuts := st.cuts + [CutAt(st.lambda, ans)];
          var sol := solve(CPModel(p, st.rows, cuts));
          q.(cuts := cuts, fHat := Some(sol.value), lambda := sol.point);
    var next := s1.(iteration := st.iteration + 1);
    Stepped(next, [ViewOf(next.lambda, next.d, next.x, next.oracleCalls)], None)
  }

  /** The first step from a fresh method always cuts: the gap against `f_hat = -inf` is never closed. */
  lemma CPFirstStepCuts<X>(p: Problem<X>, solve: LpModel -> Solution, epsilon: real)
    requires Consistent(p) && SolverConsistent(solve)
    ensures CPStep(p, solve, NewCP(p, epsilon)).next.searching
    ensures CPStep(p, solve, NewCP(p, epsilon)).next.cuts
            == [CutAt(p.project(Zeros(p.dim)), p.oracle(p.project(Zeros(p.dim))))]
  {
  }

  /** `n` consecutive cutting-planes steps and the notifications they send. */
  function CPRun<X>(p: Problem<X>, solve: LpModel -> Solution, st: CPState<X>, n: nat): (r: (CPState<X>, seq<View<X>>))
    requires Consistent(p) && SolverConsistent(solve) && CPValid(p, st)
    ensures CPValid(p, r.0)
    decreases n
  {
    if n == 0 then (st, [])
    else
      var s := CPStep(p, solve, st);
      var rest := CPRun(p, solve, s.next, n - 1);
      (rest.0, s.notices + rest.1)
  }

  /**
   * Over `n` steps: the iteration moves on by `n` with one notification per
   * step; the bundle only grows, the earlier cuts staying in place; every
   * oracle call but the one that closed the gap added a cut; and a method
   * that had stopped changes nothing but its iteration counter.
   */
  lemma {:induction false} CPRunAccounting<X>(p: Problem<X>, solve: LpModel -> Solution, st: CPState<X>, n: nat)
    requires Consistent(p) && SolverConsistent(solve) && CPValid(p, st)
    ensures CPRun(p, solve, st, n).0.iteration == st.iteration + n && |CPRun(p, solve, st, n).1| == n
    ensures st.cuts <= CPRun(p, solve, st, n).0.cuts
    ensures CPRun(p, solve, st, n).0.oracleCalls
            == st.oracleCalls + (|CPRun(p, solve, st, n).0.cuts| - |st.cuts|)
               + (if st.searching && !CPRun(p, solve, st, n).0.searching then 1 else 0)
    ensures !st.searching ==> CPRun(p, solve, st, n).0 == st.(iteration := st.iteration + n)
    decreases n
  {
    if n > 0 {
      var s := CPStep(p, solve, st);
      CPRunAccounting(p, solve, s.next, n - 1);
    }
  }

  // ----------------------------------------------------------------------
  // The proximal bundle method
  // ----------------------------------------------------------------------

  /**
   * The public state of `BundleMethod`. `centre` and `dHat` are the
   * stability centre `lambda_hat_k` and its value `d_hat_k`.
   */
  datatype BundleState<X> = BundleState(epsilon: real, mu: real, iteration: nat, oracleCalls: nat, searching: bool,
                                        lambda: Vec, d: real, x: Option<X>, centre: Vec, dHat: real,
                                        cuts: seq<Cut>, rows: seq<DomainRow>)

  /** The iterate and the centre have the problem's dimension, and every cut's slope too. */
  predicate BundleValid<X>(p: Problem<X>, st: BundleState<X>) {
    |st.lambda| == p.dim && |st.centre| == p.dim && forall k :: 0 <= k < |st.cuts| ==> |st.cuts[k].a| == p.dim
  }

  /**
   * The constructor: iteration 1, no calls, the projected origin, an empty
   * bundle. The centre and its value are placeholders the first step
   * overwrites.
   */
  function NewBundle<X>(p: Problem<X>, epsilon: real, mu: real): (st: BundleState<X>)
    requires Consistent(p)
    ensures BundleValid(p, st) && st.searching && st.cuts == [] && st.rows == []
    ensures st.iteration == 1 && st.oracleCalls == 0 && st.lambda == p.project(Zeros(p.dim))
    ensures st.epsilon == epsilon && st.mu == mu
  {
    BundleState(epsilon, mu, 1, 0, true, p.project(Zeros(p.dim)), 0.0, None, Zeros(p.dim), 0.0, [], [])
  }

  /** The bundle QP: the domain rows and the bundle, minimising `r + mu/2 ||lambda - centre||^2`. */
  function BundleModel<X>(p: Problem<X>, st: BundleState<X>): LpModel {
    LpModel(p.dim, None, st.rows, st.cuts, Some((st.mu, st.centre)))
  }

  /** `set_dual_domain` on a bundle method, as written, with the same meaning as on cutting planes. */
  function BundleSetDualDomain<X>(p: Problem<X>, st: BundleState<X>, kind: string, param: real): (r: BundleState<X>)
    requires kind != "2 stage smps"
    ensures r == st.(rows := r.rows)
    ensures kind !in KnownDomains ==> r == st
    ensures forall v: Vec ::
              SatisfiesAll(v, r.rows) <==> SatisfiesAll(v, st.rows) && SatisfiesAll(v, DomainRows(kind, param, p.dim))
  {
    st.(rows := WithDomain(st.rows, kind, param, p.dim))
  }

  /**
   * The first step's preamble: query the oracle at the iterate, make the
   * projected origin the centre with the value just returned, and put the
   * first cut in the bundle.
   */
  function BundleStart<X>(p: Problem<X>, st: BundleState<X>): (r: BundleState<X>)
    requires Consistent(p) && BundleValid(p, st)
    ensures BundleValid(p, r) && r.searching == st.searching && r.lambda == st.lambda
    ensures r.oracleCalls == st.oracleCalls + 1 && r.cuts == st.cuts + [CutAt(st.lambda, p.oracle(st.lambda))]
    ensures r.centre == p.project(Zeros(p.dim)) && r.d == r.dHat == p.oracle(st.lambda).d
    ensures r.iteration == st.iteration && r.epsilon == st.epsilon && r.mu == st.mu && r.rows == st.rows
  {
    var ans := p.oracle(st.lambda);
    st.(x := Some(ans.x), d := ans.d, oracleCalls := st.oracleCalls + 1,
        centre := p.project(Zeros(p.dim)), dHat := ans.d, cuts := st.cuts + [CutAt(st.lambda, ans)])
  }

  /**
   * Steps 1-5: solve the model, which moves the iterate even when the gap
   * then turns out closed; otherwise query the new iterate, add its cut,
   * and move the centre there only when the value gained at least
   * `gamma epsilon` on the centre's value (a serious step).
   */
  function BundleSearch<X>(p: Problem<X>, solve: LpModel -> Solution, st: BundleState<X>): (r: BundleState<X>)
    requires Consistent(p) && SolverConsistent(solve) && BundleValid(p, st)
    ensures BundleValid(p, r) && r.lambda == solve(BundleModel(p, st)).point
    ensures r.iteration == st.iteration && r.epsilon == st.epsilon && r.mu == st.mu && r.rows == st.rows
  {
    var sol := solve(BundleModel(p, st));
    var s := st.(lambda := sol.point);
    if Abs(-st.d - sol.value) < st.epsilon then s.(searching := false)
    else
      var ans := p.oracle(sol.point);
      var s' := s.(x := Some(ans.x), d := ans.d, oracleCalls := st.oracleCalls + 1,
                   cuts := st.cuts + [CutAt(sol.point, ans)]);
      if ans.d - st.dHat >= SeriousFraction * st.epsilon then s'.(dHat := ans.d, centre := sol.point)
      else s'
  }

  /** Whether the step from `st` with solver answer `sol` is serious: the new value gains `gamma epsilon` on the centre's. */
  predicate Serious<X>(p: Problem<X>, st: BundleState<X>, sol: Solution) {
    p.oracle(sol.point).d - st.dHat >= SeriousFraction * st.epsilon
  }

  /** One `BundleMethod.dual_step`: the first step's preamble, the search while searching, then count and notify. */
  function BundleStep<X>(p: Problem<X>, solve: LpModel -> Solution, st: BundleState<X>): (r: Stepped<BundleState<X>, X>)
    requires Consistent(p) && SolverConsistent(solve) && BundleValid(p, st)
    ensures BundleValid(p, r.next) && r.raised.None? && r.next.iteration == st.iteration + 1
    ensures r.notices == [ViewOf(r.next.lambda, r.next.d, r.next.x, r.next.oracleCalls)]
    ensures r.next.epsilon == st.epsilon && r.next.mu == st.mu && r.next.rows == st.rows
  {
    var s1 := if st.iteration == 1 then BundleStart(p, st) else st;
    var s2 := if s1.searching then BundleSearch(p, solve, s1) else s1;
    var next := s2.(iteration := st.iteration + 1);
    Stepped(next, [ViewOf(next.lambda, next.d, next.x, next.oracleCalls)], None)
  }

  /**
   * The bookkeeping of one bundle step: the bundle only grows, every
   * oracle call adds exactly one cut, and a method that had stopped (past
   * its first step) changes nothing but its iteration counter.
   */
  lemma BundleStepBookkeeping<X>(p: Problem<X>, solve: LpModel -> Solution, st: BundleState<X>)
    requires Consistent(p) && SolverConsistent(solve) && BundleValid(p, st)
    ensures st.cuts <= BundleStep(p, solve, st).next.cuts
    ensures BundleStep(p, solve, st).next.oracleCalls - st.oracleCalls
            == |BundleStep(p, solve, st).next.cuts| - |st.cuts|
    ensures st.iteration != 1 && !st.searching ==> BundleStep(p, solve, st).next == st.(iteration := st.iteration + 1)
    ensures st.searching ==> BundleStep(p, solve, st).next.oracleCalls <= st.oracleCalls + 2
  {
  }

  /**
   * The serious/null step rule. A step past the first that keeps searching
   * queried the solver's point and cut there; it moves the centre and its
   * value to that point exactly when the value gained at least
   * `gamma epsilon`, and otherwise leaves both where they were. With
   * `epsilon >= 0` the centre's value therefore never decreases.
   */
  lemma SeriousStepRule<X>(p: Problem<X>, solve: LpModel -> Solution, st: BundleState<X>)
    requires Consistent(p) && SolverConsistent(solve) && BundleValid(p, st)
    requires st.iteration != 1 && st.searching && BundleStep(p, solve, st).next.searching
    ensures BundleStep(p, solve, st).next.lambda == solve(BundleModel(p, st)).point
    ensures BundleStep(p, solve, st).next.d == p.oracle(solve(BundleModel(p, st)).point).d
    ensures BundleStep(p, solve, st).next.cuts
            == st.cuts + [CutAt(solve(BundleModel(p, st)).point, p.oracle(solve(BundleModel(p, st)).point))]
    ensures Serious(p, st, solve(BundleModel(p, st))) ==>
              BundleStep(p, solve, st).next.centre == solve(BundleModel(p, st)).point
              && BundleStep(p, solve, st).next.dHat == p.oracle(solve(BundleModel(p, st)).point).d
    ensures !Serious(p, st, solve(BundleModel(p, st))) ==>
              BundleStep(p, solve, st).next.centre == st.centre && BundleStep(p, solve, st).next.dHat == st.dHat
    ensures st.epsilon >= 0.0 ==> BundleStep(p, solve, st).next.dHat >= st.dHat
  {
  }

  /**
   * The gap test: a searching step past the first stops exactly when the
   * model value is within `epsilon` of `-d_k` at the current iterate, and
   * then it has moved the iterate to the solver's point without querying
   * it.
   */
  lemma BundleStopRule<X>(p: Problem<X>, solve: LpModel -> Solution, st: BundleState<X>)
    requires Consistent(p) && SolverConsistent(solve) && BundleValid(p, st)
    requires st.iteration != 1 && st.searching
    ensures !BundleStep(p, solve, st).next.searching <==>
              Abs(-st.d - solve(BundleModel(p, st)).value) < st.epsilon
    ensures !BundleStep(p, solve, st).next.searching ==>
              BundleStep(p, solve, st).next == st.(iteration := st.iteration + 1, searching := false,
                                                   lambda := solve(BundleModel(p, st)).point)
  {
  }

  /**
   * The first step of a fresh method queries the projected origin, makes it
   * the centre with the value found there, and solves a model holding that
   * one cut.
   */
  lemma BundleFirstStep<X>(p: Problem<X>, solve: LpModel -> Solution, epsilon: real, mu: real)
    requires Consistent(p) && SolverConsistent(solve)
    ensures var st := NewBundle<X>(p, epsilon, mu);
            var l0 := p.project(Zeros(p.dim));
            var start := BundleStart(p, st);
            && start.centre == l0 && start.dHat == p.oracle(l0).d
            && start.cuts == [CutAt(l0, p.oracle(l0))]
            && BundleStep(p, solve, st).next.lambda == solve(BundleModel(p, start)).point
  {
  }

  /** `n` consecutive bundle steps and the notifications they send. */
  function BundleRun<X>(p: Problem<X>, solve: LpModel -> Solution, st: BundleState<X>, n: nat): (r: (BundleState<X>, seq<View<X>>))
    requires Consistent(p) && SolverConsistent(solve) && BundleValid(p, st)
    ensures BundleValid(p, r.0)
    decreases n
  {
    if n == 0 then (st, [])
    else
      var s := BundleStep(p, solve, st);
      var rest := BundleRun(p, solve, s.next, n - 1);
      (rest.0, s.notices + rest.1)
  }

  /**
   * Over `n` steps: the iteration moves on by `n` with one notification per
   * step, the bundle only grows, it holds one cut per oracle call made, and
   * past the first step (with `epsilon >= 0`) the centre's value never
   * decreases.
   */
  lemma {:induction false} BundleRunAccounting<X>(p: Problem<X>, solve: LpModel -> Solution, st: BundleState<X>, n: nat)
    requires Consistent(p) && SolverConsistent(solve) && BundleValid(p, st)
    ensures BundleRun(p, solve, st, n).0.iteration == st.iteration + n && |BundleRun(p, solve, st, n).1| == n
    ensures st.cuts <= BundleRun(p, solve, st, n).0.cuts
    ensures BundleRun(p, solve, st, n).0.oracleCalls - st.oracleCalls == |BundleRun(p, solve, st, n).0.cuts| - |st.cuts|
    ensures st.iteration >= 2 && st.epsilon >= 0.0 ==> BundleRun(p, solve, st, n).0.dHat >= st.dHat
    decreases n
  {
    if n > 0 {
      var s := BundleStep(p, solve, st);
      BundleStepBookkeeping(p, solve, st);
      if st.iteration != 1 && st.searching && s.next.searching {
        SeriousStepRule(p, solve, st);
      }
      BundleRunAccounting(p, solve, s.next, n - 1);
    }
  }
}
