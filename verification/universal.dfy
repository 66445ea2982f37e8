/**
 * Nesterov's universal gradient methods, in their primal (algorithm 2.16),
 * dual (algorithm 3.2) and fast (algorithm 4.1) forms, applied to the
 * maximisation of the concave dual function `d`. Every step runs a doubling
 * search over exponents `i = 0, 1, 2, ...` for the first one whose trial
 * point passes a descent test with the local constant `2^i * L_k`, then
 * relaxes the constant to `2^(i-1) * L_k`.
 *
 * The search is unbounded in the methods; here it is given `fuel`
 * candidates and raises `SearchExhausted` when none of them passes.
 */
module Universal {
  import opened Wrappers
  import opened Vectors
  import opened Protocol
  import ML = MethodLoggers

  /** `UGM_DEFAULT_EPSILON`: the accuracy `epsilon` when none is given. */
  const DefaultEpsilon: real := 1.0
  /** `UGM_DEFAULT_L_0`: every method's first guess of the local constant. */
  const DefaultL0: real := 1.1

  // ----------------------------------------------------------------------
  // The pieces the three methods share
  // ----------------------------------------------------------------------

  /** `_bregman_map(M, lambda_k, diff_d_k)`: an ascent step of length `1/M`, unprojected. */
  function BregmanMap(M: real, lambda: Vec, g: Vec): (r: Vec)
    requires M != 0.0 && |lambda| == |g|
    ensures |r| == |lambda|
  {
    Add(lambda, Scale(1.0 / M, g))
  }

  /** The raw map is undone by scaling the displacement back by `M`: it moves exactly `g / M`. */
  lemma BregmanMapInverts(M: real, lambda: Vec, g: Vec)
    requires M != 0.0 && |lambda| == |g|
    ensures Scale(M, Sub(BregmanMap(M, lambda, g), lambda)) == g
  {
    var r := BregmanMap(M, lambda, g);
    var back := Scale(M, Sub(r, lambda));
    forall i | 0 <= i < |g|
      ensures back[i] == g[i]
    {
      assert r[i] - lambda[i] == (1.0 / M) * g[i];
      assert M * (1.0 / M) == 1.0;
      assert M * ((1.0 / M) * g[i]) == (M * (1.0 / M)) * g[i];
    }
  }

  /** Each class's own `_bregman_map`: the raw map followed by the projection. */
  function ProjectedBregman<X>(p: Problem<X>, M: real, lambda: Vec, g: Vec): (r: Vec)
    requires Consistent(p) && M != 0.0 && |lambda| == |g| == p.dim
    ensures |r| == p.dim
  {
    p.project(BregmanMap(M, lambda, g))
  }

  /**
   * The doubling search: the first exponent from `i` on, among `fuel`
   * candidates, that `accept` lets through. Whatever it finds is the
   * smallest accepted exponent; when it finds nothing, no candidate passed.
   */
  function FirstAccepted(accept: nat -> bool, i: nat, fuel: nat): (r: Option<nat>)
    ensures r.Some? ==> i <= r.value < i + fuel && accept(r.value)
    ensures r.Some? ==> forall j :: i <= j < r.value ==> !accept(j)
    ensures r.None? ==> forall j :: i <= j < i + fuel ==> !accept(j)
    decreases fuel
  {
    if fuel == 0 then None
    else if accept(i) then Some(i)
    else FirstAccepted(accept, i + 1, fuel - 1)
  }

  /** The `i`-th constant the doubling search tries, `2^i L`; positive when `L` is. */
  function Trial(L: real, i: nat): (M: real)
    requires L > 0.0
    ensures M > 0.0 && M == Pow2(i) * L
  {
    MulPos(Pow2(i), L);
    Pow2(i) * L
  }

  /**
   * Step 2's `L_{k+1} = 2^(i_k - 1) * L_k`: half the constant the accepted
   * test used, so accepting at once halves `L`, and `L` stays positive.
   */
  function Relax(L: real, i: nat): (r: real)
    requires L > 0.0
    ensures r > 0.0
    ensures 2.0 * r == Pow2(i) * L
    ensures i == 0 ==> 2.0 * r == L
  {
    Pow2Succ(i - 1);
    MulPos(Pow2(i - 1), L);
    Pow2(i - 1) * L
  }

  // ----------------------------------------------------------------------
  // The averaged outputs of the primal and dual methods
  // ----------------------------------------------------------------------

  /**
   * The running sums behind `lambda_tilde_k` and `d_tilde_k`: the total
   * weight `S_k`, and the weighted sums of the points and of their values.
   */
  datatype Average = Average(weight: real, sumLambda: Vec, sumD: real)

  /** The sums before any point was averaged in: all zero. */
  function StartAverage(n: nat): (avg: Average)
    ensures avg.weight == 0.0 && |avg.sumLambda| == n
  {
    Average(0.0, Zeros(n), 0.0)
  }

  /** The sums as the constructors set them: `S = 1/L_0`, the first point with weight one, and no value. */
  function AsWrittenStart(L0: real, lambda0: Vec): (avg: Average)
    requires L0 > 0.0
    ensures avg.weight > 0.0 && avg.sumLambda == lambda0 && avg.sumD == 0.0
  {
    InversePositive(L0);
    Average(1.0 / L0, lambda0, 0.0)
  }

  /** Add the point `v` with value `dv` at weight `w`. */
  function Accumulate(avg: Average, w: real, v: Vec, dv: real): (r: Average)
    requires |v| == |avg.sumLambda|
    ensures |r.sumLambda| == |v|
    ensures r.weight == avg.weight + w
  {
    Average(avg.weight + w, Add(avg.sumLambda, Scale(w, v)), avg.sumD + w * dv)
  }

  /** `(lambda_tilde_k, d_tilde_k)`: the sums divided by the total weight. */
  function TildeOf(avg: Average): (r: (Vec, real))
    requires avg.weight != 0.0
    ensures |r.0| == |avg.sumLambda|
  {
    (Scale(1.0 / avg.weight, avg.sumLambda), avg.sumD / avg.weight)
  }

  /** The sums are what averaging the constant point `v` with the constant value `c` gives. */
  ghost predicate Balanced(avg: Average, v: Vec, c: real) {
    avg.sumLambda == Scale(avg.weight, v) && avg.sumD == c * avg.weight
  }

  /** The empty sums are balanced for every point and value. */
  lemma StartIsBalanced(v: Vec, c: real)
    ensures Balanced(StartAverage(|v|), v, c)
  {
    assert Scale(0.0, v) == Zeros(|v|);
  }

  /** Averaging in the point and value the sums are balanced for keeps them balanced. */
  lemma AccumulateKeepsBalance(avg: Average, w: real, v: Vec, c: real)
    requires |v| == |avg.sumLambda| && Balanced(avg, v, c)
    ensures Balanced(Accumulate(avg, w, v, c), v, c)
  {
    var r := Accumulate(avg, w, v, c);
    var want := Scale(avg.weight + w, v);
    forall i | 0 <= i < |v|
      ensures r.sumLambda[i] == want[i]
    {
      assert avg.sumLambda[i] == avg.weight * v[i];
    }
    assert r.sumLambda == want;
    assert r.sumD == c * avg.weight + w * c == c * (avg.weight + w);
  }

  /** Balanced sums average to their point and their value: the averages of a constant are that constant. */
  lemma BalancedTildeIsConstant(avg: Average, v: Vec, c: real)
    requires avg.weight != 0.0 && |v| == |avg.sumLambda| && Balanced(avg, v, c)
    ensures TildeOf(avg) == (v, c)
  {
    var t := TildeOf(avg);
    forall i | 0 <= i < |v|
      ensures t.0[i] == v[i]
    {
      assert t.0[i] == (1.0 / avg.weight) * (avg.weight * v[i]);
      assert (1.0 / avg.weight) * avg.weight == 1.0;
    }
    assert t.0 == v;
    CrossMultiply(avg.sumD, avg.weight, c, 1.0);
    assert t.1 == c;
  }

  /**
   * With the constructors' starting sums, one step on a constant oracle
   * (every value 1, the origin as the only point) from `L_0 = 1.1` with the
   * search accepting at once (`L_1 = 0.55`) reports `d_tilde = 2/3`, not 1:
   * the starting weight `1/L_0` counts in the total but no value was added
   * for it.
   */
  lemma AsWrittenAverageIsNotAnAverage()
    ensures TildeOf(Accumulate(AsWrittenStart(1.1, [0.0]), 1.0 / 0.55, [0.0], 1.0)).1 == 2.0 / 3.0
  {
    var avg := Accumulate(AsWrittenStart(1.1, [0.0]), 1.0 / 0.55, [0.0], 1.0);
    assert avg.weight == 1.0 / 1.1 + 1.0 / 0.55;
    assert avg.sumD == 1.0 / 0.55;
  }

  // ----------------------------------------------------------------------
  // The fast method's coefficient
  // ----------------------------------------------------------------------

  /** The closed form the fast method computes `a_{k+1}` with, for the candidate exponent `i`. */
  function FastCoefficient(sqrt: real -> real, A: real, L: real, i: nat): (a: real)
    requires IsSqrt(sqrt) && A >= 0.0 && L > 0.0
  {
    MulPos(Pow2(i + 1), L);
    (1.0 + sqrt(1.0 + A * Pow2(i + 2) * L)) / (Pow2(i + 1) * L)
  }

  /**
   * `a` is the positive root of `M a^2 = A + a` for the tested constant
   * `M = 2^i * L`, so that `A_{k+1} = A_k + a` equals `M a^2`.
   */
  lemma FastCoefficientRoot(sqrt: real -> real, A: real, L: real, i: nat)
    requires IsSqrt(sqrt) && A >= 0.0 && L > 0.0
    ensures FastCoefficient(sqrt, A, L, i) > 0.0
    ensures Pow2(i) * L * FastCoefficient(sqrt, A, L, i) * FastCoefficient(sqrt, A, L, i)
            == A + FastCoefficient(sqrt, A, L, i)
  {
    Pow2Succ(i);
    Pow2Succ(i + 1);
    var M := Pow2(i) * L;
    MulPos(Pow2(i), L);
    assert Pow2(i + 1) * L == 2.0 * M;
    assert A * Pow2(i + 2) * L == 4.0 * (A * M);
    MulNonneg(A, M);
    var D := 1.0 + A * Pow2(i + 2) * L;
    var s := sqrt(D);
    assert s >= 0.0 && s * s == D;
    var a := FastCoefficient(sqrt, A, L, i);
    assert a == (1.0 + s) / (2.0 * M);
    assert a * (2.0 * M) == 1.0 + s;
    InversePositive(2.0 * M);
    MulPos(1.0 + s, 1.0 / (2.0 * M));
    assert a == (1.0 + s) * (1.0 / (2.0 * M));
    var X := M * a * a;
    assert (a * (2.0 * M)) * (a * (2.0 * M)) == 4.0 * M * X;
    assert (1.0 + s) * (1.0 + s) == 2.0 + 2.0 * s + 4.0 * (A * M);
    assert 4.0 * M * X == 4.0 * M * (A + a);
    ProductZero(X - (A + a), 4.0 * M);
  }

  /** The weight `tau = a/(A + a)` lies in `(0, 1]`, and is 1 exactly when `A` is still 0. */
  lemma FastTau(a: real, A: real)
    requires a > 0.0 && A >= 0.0
    ensures 0.0 < a / (A + a) <= 1.0
    ensures a / (A + a) == 1.0 <==> A == 0.0
    ensures (a / (A + a)) * (A + a) == a
  {
    RatioAtMostOne(a, A + a);
    if A > 0.0 {
      RatioInUnit(a, A + a);
    }
  }

  // ----------------------------------------------------------------------
  // Method state
  // ----------------------------------------------------------------------

  datatype Kind = Primal | Dual | Fast

  /**
   * The fields of `UniversalPGM`, `UniversalDGM` and `UniversalFGM`. The
   * hat iterate is the method's own sequence; `lambda`, `d` and `x` are the
   * reported outputs; `avg` and the tilde pair are the averaged outputs of
   * the primal and dual methods; `phi` is the dual and fast methods'
   * accumulated step; `y`, `A`, `a` and `tau` belong to the fast method.
   * The fast method's `a_k` and `tau_k` start at 0 (the class stores a
   * placeholder vector in `a_k`, which no step reads).
   */
  datatype UState<X> = UState(
    kind: Kind, epsilon: real, averaging: bool, name: string,
    iteration: nat, oracleCalls: nat, L: real, ik: nat,
    hat: Vec, dHat: real, gHat: Vec, xHat: Option<X>,
    lambda: Vec, d: real, x: Option<X>,
    avg: Average, lambdaTilde: Vec, dTilde: real,
    phi: Vec, y: Vec, A: real, a: real, tau: real)

  predicate Valid<X>(p: Problem<X>, st: UState<X>) {
    && st.iteration >= 1 && st.L > 0.0 && st.A >= 0.0 && st.avg.weight >= 0.0
    && |st.hat| == |st.gHat| == |st.lambda| == |st.avg.sumLambda| == |st.lambdaTilde| == p.dim
    && |st.phi| == |st.y| == p.dim
  }

  function KindName(kind: Kind): string {
    match kind
    case Primal => "UPGM"
    case Dual => "UDGM"
    case Fast => "UFGM"
  }

  /**
   * The constructors: iteration 1, no oracle call, `L_0 = 1.1`, and every
   * iterate (hat, reported, tilde, `phi`, `y`) at the projected origin. The
   * averaging sums start as the constructors set them: weight `1/L_0`, the
   * origin as the point sum, and no value.
   */
  function NewUniversal<X>(p: Problem<X>, kind: Kind, epsilon: real, averaging: bool): (st: UState<X>)
    requires Consistent(p)
    ensures Valid(p, st) && st.kind == kind && st.epsilon == epsilon && st.averaging == averaging
    ensures st.iteration == 1 && st.oracleCalls == 0 && st.L == DefaultL0 && st.A == 0.0
    ensures st.hat == st.lambda == st.phi == st.y == st.lambdaTilde == p.project(Zeros(p.dim))
    ensures st.gHat == Zeros(p.dim)
    ensures st.avg.weight == 1.0 / DefaultL0 && st.avg.sumLambda == st.hat && st.avg.sumD == 0.0
  {
    var start := p.project(Zeros(p.dim));
    UState(kind, epsilon, averaging, KindName(kind), 1, 0, DefaultL0, 0,
           start, 0.0, Zeros(p.dim), None, start, 0.0, None,
           AsWrittenStart(DefaultL0, start), start, 0.0, start, start, 0.0, 0.0, 0.0)
  }

  /**
   * The constructors with the averaging sums started at zero, so that the
   * tilde pair is the weighted mean of the accepted points and values only.
   */
  function NewUniversalCorrected<X>(p: Problem<X>, kind: Kind, epsilon: real, averaging: bool): (st: UState<X>)
    requires Consistent(p)
    ensures Valid(p, st)
    ensures st == NewUniversal(p, kind, epsilon, averaging).(avg := st.avg)
    ensures st.avg.weight == 0.0 && st.avg.sumLambda == Zeros(p.dim) && st.avg.sumD == 0.0
  {
    NewUniversal(p, kind, epsilon, averaging).(avg := StartAverage(p.dim))
  }

  /**
   * For an oracle whose value is the constant `c`, the corrected start's
   * sums satisfy the value balance that `ConstantValueAveragesToItself`
   * keeps, and the constructors' own start does not unless `c` is 0.
   */
  lemma StartBalance<X>(p: Problem<X>, kind: Kind, epsilon: real, averaging: bool, c: real)
    requires Consistent(p)
    ensures var st := NewUniversalCorrected(p, kind, epsilon, averaging);
            st.avg.sumD == c * st.avg.weight
    ensures var st := NewUniversal(p, kind, epsilon, averaging);
            st.avg.sumD == c * st.avg.weight <==> c == 0.0
  {
    var st := NewUniversal(p, kind, epsilon, averaging);
    InversePositive(DefaultL0);
    ProductZero(c, st.avg.weight);
  }

  /**
   * What an observer sees: the reported triple and call count, `L_k`, and
   * for the primal and dual methods the tilde pair.
   */
  function Shown<X>(st: UState<X>): View<X> {
    DualView(st.lambda, st.d, st.x, st.oracleCalls,
             Extras(Some(st.L), if st.kind.Fast? then None else Some((st.lambdaTilde, st.dTilde))))
  }

  /** Whether this step starts with the extra oracle call at the initial point. */
  predicate QueriesFirst<X>(st: UState<X>) {
    !st.kind.Fast? && st.iteration == 1
  }

  /**
   * The primal and dual methods' first step begins by querying the initial
   * hat point and reporting it.
   */
  function Prepared<X>(p: Problem<X>, st: UState<X>): (r: UState<X>)
    requires Consistent(p) && Valid(p, st)
    ensures Valid(p, r) && r.kind == st.kind && r.L == st.L && r.iteration == st.iteration
    ensures r.hat == st.hat && r.phi == st.phi && r.y == st.y && r.A == st.A && r.avg == st.avg
    ensures r.x == st.x
    ensures QueriesFirst(st) ==> r.oracleCalls == st.oracleCalls + 1
                                 && r.lambda == r.hat && r.d == r.dHat == p.oracle(st.hat).d
                                 && r.gHat == p.oracle(st.hat).g
    ensures !QueriesFirst(st) ==> r == st
  {
    if QueriesFirst(st) then
      var a := p.oracle(st.hat);
      st.(xHat := Some(a.x), dHat := a.d, gHat := a.g, oracleCalls := st.oracleCalls + 1,
          lambda := st.hat, d := a.d)
    else st
  }

  /**
   * The reported outputs at the end of a step. Without averaging they are
   * the hat iterate; with it, the oracle is queried once more at the
   * averaged point.
   */
  function Report<X>(p: Problem<X>, st: UState<X>, averaged: Vec): (r: UState<X>)
    requires Consistent(p) && Valid(p, st) && |averaged| == p.dim
    ensures Valid(p, r)
    ensures r == st.(lambda := r.lambda, d := r.d, x := r.x, oracleCalls := r.oracleCalls)
    ensures !st.averaging ==> r.lambda == st.hat && r.d == st.dHat && r.x == st.xHat && r.oracleCalls == st.oracleCalls
    ensures st.averaging ==> r.lambda == averaged && r.oracleCalls == st.oracleCalls + 1
    ensures st.averaging ==> r.d == p.oracle(r.lambda).d && r.x == Some(p.oracle(r.lambda).x)
  {
    if st.averaging then
      var b := p.oracle(averaged);
      st.(lambda := averaged, d := b.d, x := Some(b.x), oracleCalls := st.oracleCalls + 1)
    else st.(lambda := st.hat, d := st.dHat, x := st.xHat)
  }

  /** The observers' view of the first step's extra query, if this step makes it. */
  function FirstNotices<X>(p: Problem<X>, st: UState<X>): seq<View<X>>
    requires Consistent(p) && Valid(p, st)
  {
    if QueriesFirst(st) then [Shown(Prepared(p, st))] else []
  }

  /** The oracle calls the first step's extra query adds. */
  function ExtraCalls<X>(st: UState<X>): nat {
    if QueriesFirst(st) then 1 else 0
  }

  /**
   * The outputs of a finished step: the hat iterate without averaging, the
   * averaged point and the oracle's answer there with it.
   */
  ghost predicate Reported<X>(p: Problem<X>, st: UState<X>, averaged: Vec) {
    if st.averaging then st.lambda == averaged && st.d == p.oracle(averaged).d && st.x == Some(p.oracle(averaged).x)
    else st.lambda == st.hat && st.d == st.dHat && st.x == st.xHat
  }

  /** Fold the accepted step's point into the averages and refresh the tilde pair. */
  function Averaged<X>(p: Problem<X>, st: UState<X>, w: real, v: Vec, dv: real): (r: UState<X>)
    requires Valid(p, st) && w > 0.0 && |v| == p.dim
    ensures Valid(p, r) && r.avg == Accumulate(st.avg, w, v, dv)
    ensures (r.lambdaTilde, r.dTilde) == TildeOf(r.avg)
    ensures r == st.(avg := r.avg, lambdaTilde := r.lambdaTilde, dTilde := r.dTilde)
  {
    var avg := Accumulate(st.avg, w, v, dv);
    var t := TildeOf(avg);
    st.(avg := avg, lambdaTilde := t.0, dTilde := t.1)
  }

  // ----------------------------------------------------------------------
  // Algorithm 2.16: the primal method
  // ----------------------------------------------------------------------

  /** The primal method's trial point for exponent `i`: the projected Bregman step from the hat iterate. */
  ghost function PrimalPoint<X>(p: Problem<X>, st: UState<X>, i: nat): (r: Vec)
    requires Consistent(p) && Valid(p, st)
    ensures |r| == p.dim
  {
    MulPos(Pow2(i), st.L);
    ProjectedBregman(p, Pow2(i) * st.L, st.hat, st.gHat)
  }

  /**
   * Step 1's test: `-d(lambda+)` is at most the linearisation of `-d` at the
   * hat iterate plus `2^(i-1) L ||lambda+ - hat||^2 + epsilon/2`.
   */
  ghost predicate PrimalAccepts<X>(p: Problem<X>, st: UState<X>, i: nat)
    requires Consistent(p) && Valid(p, st)
  {
    var pt := PrimalPoint(p, st, i);
    -p.oracle(pt).d <= -st.dHat + Dot(Neg(st.gHat), Sub(pt, st.hat))
                       + Pow2(i - 1) * st.L * NormSq(Sub(pt, st.hat)) + 0.5 * st.epsilon
  }

  /** The primal search: the smallest passing exponent below `fuel`, if any. */
  ghost function PrimalSearch<X>(p: Problem<X>, st: UState<X>, fuel: nat): (r: Option<nat>)
    requires Consistent(p) && Valid(p, st)
    ensures r.Some? ==> r.value < fuel && PrimalAccepts(p, st, r.value)
    ensures r.Some? ==> forall j: nat :: j < r.value ==> !PrimalAccepts(p, st, j)
    ensures r.None? ==> forall j: nat :: j < fuel ==> !PrimalAccepts(p, st, j)
  {
    var accept := (i: nat) => PrimalAccepts(p, st, i);
    var r := FirstAccepted(accept, 0, fuel);
    assert forall j: nat :: accept(j) == PrimalAccepts(p, st, j);
    r
  }

  /**
   * Step 2 after exponent `i` passed: the trial point becomes the hat
   * iterate, `L` is relaxed, and the previous hat iterate and its value are
   * averaged in with weight `1/L_{k+1}`; then the outputs are reported.
   */
  ghost function PrimalAccepted<X>(p: Problem<X>, st: UState<X>, i: nat): (r: UState<X>)
    requires Consistent(p) && Valid(p, st) && st.kind.Primal?
    ensures Valid(p, r) && r.kind == st.kind && r.averaging == st.averaging && r.ik == i
    ensures r.iteration == st.iteration + 1 && r.L == Relax(st.L, i)
    ensures r.oracleCalls == st.oracleCalls + i + 1 + (if st.averaging then 1 else 0)
    ensures r.avg == Accumulate(st.avg, 1.0 / r.L, st.hat, st.dHat) && r.dTilde == TildeOf(r.avg).1
    ensures r.hat == PrimalPoint(p, st, i) && r.dHat == p.oracle(r.hat).d
    ensures r.gHat == p.oracle(r.hat).g && r.xHat == Some(p.oracle(r.hat).x)
    ensures Reported(p, r, p.project(r.lambdaTilde))
  {
    var pt := PrimalPoint(p, st, i);
    var ans := p.oracle(pt);
    var L' := Relax(st.L, i);
    InversePositive(L');
    var s2 := Averaged(p, st, 1.0 / L', st.hat, st.dHat);
    var s3 := s2.(iteration := st.iteration + 1, oracleCalls := st.oracleCalls + i + 1, L := L', ik := i,
                  hat := pt, dHat := ans.d, gHat := ans.g, xHat := Some(ans.x));
    Report(p, s3, p.project(s3.lambdaTilde))
  }

  /** One `UniversalPGM.dual_step`: the first step's extra query, the search (one oracle call per candidate), step 2. */
  ghost function PrimalStep<X>(p: Problem<X>, st: UState<X>, fuel: nat): (r: Stepped<UState<X>, X>)
    requires Consistent(p) && Valid(p, st) && st.kind.Primal?
    ensures Valid(p, r.next) && r.next.kind == st.kind
    ensures r.raised.Some? <==> PrimalSearch(p, Prepared(p, st), fuel).None?
    ensures r.raised.Some? ==> r.raised == Some(SearchExhausted) && r.notices == FirstNotices(p, st)
    ensures r.raised.None? ==> r.next == PrimalAccepted(p, Prepared(p, st), PrimalSearch(p, Prepared(p, st), fuel).value)
    ensures r.raised.None? ==> r.notices == FirstNotices(p, st) + [Shown(r.next)]
  {
    var s1 := Prepared(p, st);
    match PrimalSearch(p, s1, fuel)
    case None => Stepped(s1.(oracleCalls := s1.oracleCalls + fuel), FirstNotices(p, st), Some(SearchExhausted))
    case Some(i) =>
      var next := PrimalAccepted(p, s1, i);
      Stepped(next, FirstNotices(p, st) + [Shown(next)], None)
  }

  // ----------------------------------------------------------------------
  // Algorithm 3.2: the dual method
  // ----------------------------------------------------------------------

  /** The dual method's test point for exponent `i`: the projected step of length `1/(2^i L)` from `phi`. */
  ghost function DualTest<X>(p: Problem<X>, st: UState<X>, i: nat): (r: Vec)
    requires Consistent(p) && Valid(p, st)
    ensures |r| == p.dim
  {
    ProjectedBregman(p, Trial(st.L, i), st.phi, st.gHat)
  }

  /** The projected Bregman image of the test point, with the same constant. */
  ghost function DualImage<X>(p: Problem<X>, st: UState<X>, i: nat): (r: Vec)
    requires Consistent(p) && Valid(p, st)
    ensures |r| == p.dim
  {
    ProjectedBregman(p, Trial(st.L, i), DualTest(p, st, i), p.oracle(DualTest(p, st, i)).g)
  }

  /**
   * Step 0's test: `-d` at the image is at most the linearisation of `-d`
   * at the test point plus `(2^i L / 2) ||test - image||^2 + epsilon/2`.
   */
  ghost predicate DualAccepts<X>(p: Problem<X>, st: UState<X>, i: nat)
    requires Consistent(p) && Valid(p, st)
  {
    var t := DualTest(p, st, i);
    var b := DualImage(p, st, i);
    -p.oracle(b).d <= -p.oracle(t).d + Dot(Neg(p.oracle(t).g), Sub(b, t))
                      + (Pow2(i) * st.L) / 2.0 * NormSq(Sub(t, b)) + st.epsilon / 2.0
  }

  /** The dual search: the smallest passing exponent below `fuel`, if any. */
  ghost function DualSearch<X>(p: Problem<X>, st: UState<X>, fuel: nat): (r: Option<nat>)
    requires Consistent(p) && Valid(p, st)
    ensures r.Some? ==> r.value < fuel && DualAccepts(p, st, r.value)
    ensures r.Some? ==> forall j: nat :: j < r.value ==> !DualAccepts(p, st, j)
    ensures r.None? ==> forall j: nat :: j < fuel ==> !DualAccepts(p, st, j)
  {
    var accept := (i: nat) => DualAccepts(p, st, i);
    var r := FirstAccepted(accept, 0, fuel);
    assert forall j: nat :: accept(j) == DualAccepts(p, st, j);
    r
  }

  /**
   * Step 2 after exponent `i` passed: the test point becomes the hat
   * iterate, its image is averaged in with weight `1/L_{k+1}`, and `phi`
   * advances by `g/(2 L_{k+1})` along the previous hat subgradient.
   */
  ghost function DualAccepted<X>(p: Problem<X>, st: UState<X>, i: nat): (r: UState<X>)
    requires Consistent(p) && Valid(p, st) && st.kind.Dual?
    ensures Valid(p, r) && r.kind == st.kind && r.averaging == st.averaging && r.ik == i
    ensures r.iteration == st.iteration + 1 && r.L == Relax(st.L, i)
    ensures r.oracleCalls == st.oracleCalls + 2 * (i + 1) + (if st.averaging then 1 else 0)
    ensures r.avg == Accumulate(st.avg, 1.0 / r.L, DualImage(p, st, i), p.oracle(DualImage(p, st, i)).d)
    ensures r.dTilde == TildeOf(r.avg).1
    ensures r.hat == DualTest(p, st, i) && r.dHat == p.oracle(r.hat).d
    ensures r.gHat == p.oracle(r.hat).g && r.xHat == Some(p.oracle(r.hat).x)
    ensures r.phi == Add(st.phi, Scale(1.0 / (2.0 * r.L), st.gHat))
    ensures Reported(p, r, p.project(r.lambdaTilde))
  {
    var t := DualTest(p, st, i);
    var at := p.oracle(t);
    var b := DualImage(p, st, i);
    var L' := Relax(st.L, i);
    InversePositive(L');
    var s2 := Averaged(p, st, 1.0 / L', b, p.oracle(b).d);
    var s3 := s2.(iteration := st.iteration + 1, oracleCalls := st.oracleCalls + 2 * (i + 1), L := L', ik := i,
                  hat := t, phi := Add(st.phi, Scale(1.0 / (2.0 * L'), st.gHat)),
                  dHat := at.d, gHat := at.g, xHat := Some(at.x));
    Report(p, s3, p.project(s3.lambdaTilde))
  }

  /** One `UniversalDGM.dual_step`: the first step's extra query, the search (two oracle calls per candidate), step 2. */
  ghost function DualStep<X>(p: Problem<X>, st: UState<X>, fuel: nat): (r: Stepped<UState<X>, X>)
    requires Consistent(p) && Valid(p, st) && st.kind.Dual?
    ensures Valid(p, r.next) && r.next.kind == st.kind
    ensures r.raised.Some? <==> DualSearch(p, Prepared(p, st), fuel).None?
    ensures r.raised.Some? ==> r.raised == Some(SearchExhausted) && r.notices == FirstNotices(p, st)
    ensures r.raised.None? ==> r.next == DualAccepted(p, Prepared(p, st), DualSearch(p, Prepared(p, st), fuel).value)
    ensures r.raised.None? ==> r.notices == FirstNotices(p, st) + [Shown(r.next)]
  {
    var s1 := Prepared(p, st);
    match DualSearch(p, s1, fuel)
    case None => Stepped(s1.(oracleCalls := s1.oracleCalls + 2 * fuel), FirstNotices(p, st), Some(SearchExhausted))
    case Some(i) =>
      var next := DualAccepted(p, s1, i);
      Stepped(next, FirstNotices(p, st) + [Shown(next)], None)
  }

  // ----------------------------------------------------------------------
  // Algorithm 4.1: the fast method
  // ----------------------------------------------------------------------

  /** Everything one candidate exponent of the fast method computes. */
  datatype FastCandidate<X> = FastCandidate(a: real, tau: real, test: Vec, atTest: OracleAnswer<X>,
                                            hat: Vec, y: Vec, atY: OracleAnswer<X>)

  /**
   * Candidate `i` from `v = project(phi)`: the coefficient `a`, the weight
   * `tau = a/(A + a)`, the test point between `v` and `y`, the projected
   * step from `v` along the test point's subgradient, and the new `y`.
   */
  ghost function FastCandidateAt<X>(p: Problem<X>, sqrt: real -> real, st: UState<X>, i: nat): (c: FastCandidate<X>)
    requires Consistent(p) && IsSqrt(sqrt) && Valid(p, st)
    ensures c.a > 0.0 && 0.0 < c.tau <= 1.0 && |c.test| == |c.hat| == |c.y| == p.dim
  {
    var v := p.project(st.phi);
    var a := FastCoefficient(sqrt, st.A, st.L, i);
    FastCoefficientRoot(sqrt, st.A, st.L, i);
    FastTau(a, st.A);
    var tau := a / (st.A + a);
    var test := Combine(tau, v, 1.0 - tau, st.y);
    var at := p.oracle(test);
    var hat := p.project(Add(v, Scale(a, at.g)));
    var y := Combine(tau, hat, 1.0 - tau, st.y);
    FastCandidate(a, tau, test, at, hat, y, p.oracle(y))
  }

  /**
   * Step 2's test: `-d(y)` is at most the linearisation of `-d` at the test
   * point plus `2^(i-1) L ||y - test||^2 + tau epsilon/2`.
   */
  ghost predicate FastAccepts<X>(p: Problem<X>, sqrt: real -> real, st: UState<X>, i: nat)
    requires Consistent(p) && IsSqrt(sqrt) && Valid(p, st)
  {
    var c := FastCandidateAt(p, sqrt, st, i);
    -c.atY.d <= -c.atTest.d + Dot(Neg(c.atTest.g), Sub(c.y, c.test))
                + Pow2(i - 1) * st.L * NormSq(Sub(c.y, c.test)) + st.epsilon / 2.0 * c.tau
  }

  /** The fast search: the smallest passing exponent below `fuel`, if any. */
  ghost function FastSearch<X>(p: Problem<X>, sqrt: real -> real, st: UState<X>, fuel: nat): (r: Option<nat>)
    requires Consistent(p) && IsSqrt(sqrt) && Valid(p, st)
    ensures r.Some? ==> r.value < fuel && FastAccepts(p, sqrt, st, r.value)
    ensures r.Some? ==> forall j: nat :: j < r.value ==> !FastAccepts(p, sqrt, st, j)
    ensures r.None? ==> forall j: nat :: j < fuel ==> !FastAccepts(p, sqrt, st, j)
  {
    var accept := (i: nat) => FastAccepts(p, sqrt, st, i);
    var r := FirstAccepted(accept, 0, fuel);
    assert forall j: nat :: accept(j) == FastAccepts(p, sqrt, st, j);
    r
  }

  /**
   * Step 3 after exponent `i` passed: the test point becomes the hat
   * iterate, `y`, `a`, `tau` come from the candidate, `A` grows by `a`, and
   * `phi` advances by `a` times the previous hat subgradient.
   */
  ghost function FastAccepted<X>(p: Problem<X>, sqrt: real -> real, st: UState<X>, i: nat): (r: UState<X>)
    requires Consistent(p) && IsSqrt(sqrt) && Valid(p, st) && st.kind.Fast?
    ensures Valid(p, r) && r.kind == st.kind && r.averaging == st.averaging && r.ik == i
    ensures r.iteration == st.iteration + 1 && r.L == Relax(st.L, i)
    ensures r.oracleCalls == st.oracleCalls + 2 * (i + 1) + (if st.averaging then 1 else 0)
    ensures r.a == FastCoefficient(sqrt, st.A, st.L, i) && r.tau == r.a / (st.A + r.a) && r.A == st.A + r.a
    ensures r.hat == FastCandidateAt(p, sqrt, st, i).test && r.y == FastCandidateAt(p, sqrt, st, i).y
    ensures r.dHat == p.oracle(r.hat).d && r.gHat == p.oracle(r.hat).g && r.xHat == Some(p.oracle(r.hat).x)
    ensures r.phi == Add(st.phi, Scale(r.a, st.gHat))
    ensures Reported(p, r, r.y)
  {
    var c := FastCandidateAt(p, sqrt, st, i);
    var s3 := st.(iteration := st.iteration + 1, oracleCalls := st.oracleCalls + 2 * (i + 1),
                  L := Relax(st.L, i), ik := i, hat := c.test, y := c.y, a := c.a, tau := c.tau,
                  A := st.A + c.a, phi := Add(st.phi, Scale(c.a, st.gHat)),
                  dHat := c.atTest.d, gHat := c.atTest.g, xHat := Some(c.atTest.x));
    Report(p, s3, s3.y)
  }

  /** One `UniversalFGM.dual_step`: the search (two oracle calls per candidate), then step 3. */
  ghost function FastStep<X>(p: Problem<X>, sqrt: real -> real, st: UState<X>, fuel: nat): (r: Stepped<UState<X>, X>)
    requires Consistent(p) && IsSqrt(sqrt) && Valid(p, st) && st.kind.Fast?
    ensures Valid(p, r.next) && r.next.kind == st.kind
    ensures r.raised.Some? <==> FastSearch(p, sqrt, st, fuel).None?
    ensures r.raised.Some? ==> r.raised == Some(SearchExhausted) && r.notices == []
    ensures r.raised.None? ==> r.next == FastAccepted(p, sqrt, st, FastSearch(p, sqrt, st, fuel).value)
    ensures r.raised.None? ==> r.notices == [Shown(r.next)]
  {
    match FastSearch(p, sqrt, st, fuel)
    case None => Stepped(st.(oracleCalls := st.oracleCalls + 2 * fuel), [], Some(SearchExhausted))
    case Some(i) =>
      var next := FastAccepted(p, sqrt, st, i);
      Stepped(next, [Shown(next)], None)
  }

  // ----------------------------------------------------------------------
  // The three methods together
  // ----------------------------------------------------------------------

  /** `dual_step` of whichever class the state belongs to. */
  ghost function Step<X>(p: Problem<X>, sqrt: real -> real, st: UState<X>, fuel: nat): (r: Stepped<UState<X>, X>)
    requires Consistent(p) && IsSqrt(sqrt) && Valid(p, st)
    ensures Valid(p, r.next) && r.next.kind == st.kind
    ensures r.raised.Some? ==> r.raised == Some(SearchExhausted)
    ensures r.raised.None? ==> r.next.iteration == st.iteration + 1
                               && |r.notices| >= 1 && r.notices[|r.notices| - 1] == Shown(r.next)
  {
    match st.kind
    case Primal => PrimalStep(p, st, fuel)
    case Dual => DualStep(p, st, fuel)
    case Fast => FastStep(p, sqrt, st, fuel)
  }

  /** Whether the method accepts exponent `i` in the step from `st` (after the first step's extra query). */
  ghost predicate Accepts<X>(p: Problem<X>, sqrt: real -> real, st: UState<X>, i: nat)
    requires Consistent(p) && IsSqrt(sqrt) && Valid(p, st)
  {
    match st.kind
    case Primal => PrimalAccepts(p, Prepared(p, st), i)
    case Dual => DualAccepts(p, Prepared(p, st), i)
    case Fast => FastAccepts(p, sqrt, st, i)
  }

  /** Oracle calls one search candidate costs: one for the primal method, two for the others. */
  function PerCandidate(kind: Kind): nat {
    if kind.Primal? then 1 else 2
  }

  /** Exponent `i` passes the step's test and no smaller exponent does. */
  ghost predicate SmallestAccepted<X>(p: Problem<X>, sqrt: real -> real, st: UState<X>, i: nat)
    requires Consistent(p) && IsSqrt(sqrt) && Valid(p, st)
  {
    Accepts(p, sqrt, st, i) && forall j: nat :: j < i ==> !Accepts(p, sqrt, st, j)
  }

  /**
   * The accounting of one step's outcome `r`. It raises exactly when none
   * of the `fuel` candidates passes. If it finishes, it accepted the
   * smallest passing exponent and moved the iteration on by one however
   * many candidates it tried. It relaxed `L` to `2^(i-1) L`. It paid one
   * oracle call per candidate for the primal method and two for the
   * others, one more on the primal and dual methods' first step, and one
   * more with averaging. It notified once, after an extra notification of
   * the initial point on the primal and dual methods' first step.
   */
  ghost predicate Accounted<X>(p: Problem<X>, sqrt: real -> real, st: UState<X>, fuel: nat, r: Stepped<UState<X>, X>)
    requires Consistent(p) && IsSqrt(sqrt) && Valid(p, st)
  {
    && (r.raised.Some? <==> forall j: nat :: j < fuel ==> !Accepts(p, sqrt, st, j))
    && (r.raised.Some? ==> r.raised == Some(SearchExhausted) && r.notices == FirstNotices(p, st))
    && (r.raised.None? ==>
          && r.next.ik < fuel
          && SmallestAccepted(p, sqrt, st, r.next.ik)
          && r.next.iteration == st.iteration + 1
          && r.next.L == Relax(st.L, r.next.ik)
          && r.next.oracleCalls
             == st.oracleCalls + ExtraCalls(st) + PerCandidate(st.kind) * (r.next.ik + 1) + (if st.averaging then 1 else 0)
          && r.notices == FirstNotices(p, st) + [Shown(r.next)])
  }

  /** The primal method's step is accounted for. */
  lemma PrimalAccounting<X>(p: Problem<X>, sqrt: real -> real, st: UState<X>, fuel: nat)
    requires Consistent(p) && IsSqrt(sqrt) && Valid(p, st) && st.kind.Primal?
    ensures Accounted(p, sqrt, st, fuel, PrimalStep(p, st, fuel))
  {
    var s1 := Prepared(p, st);
    assert s1.oracleCalls == st.oracleCalls + ExtraCalls(st);
    assert forall j: nat :: Accepts(p, sqrt, st, j) == PrimalAccepts(p, s1, j);
    var found := PrimalSearch(p, s1, fuel);
    if found.Some? {
      var next := PrimalAccepted(p, s1, found.value);
      assert next.ik == found.value && next.L == Relax(st.L, found.value);
    }
  }

  /** The dual method's step is accounted for. */
  lemma DualAccounting<X>(p: Problem<X>, sqrt: real -> real, st: UState<X>, fuel: nat)
    requires Consistent(p) && IsSqrt(sqrt) && Valid(p, st) && st.kind.Dual?
    ensures Accounted(p, sqrt, st, fuel, DualStep(p, st, fuel))
  {
    var s1 := Prepared(p, st);
    assert s1.oracleCalls == st.oracleCalls + ExtraCalls(st);
    assert forall j: nat :: Accepts(p, sqrt, st, j) == DualAccepts(p, s1, j);
    var found := DualSearch(p, s1, fuel);
    if found.Some? {
      var next := DualAccepted(p, s1, found.value);
      assert next.ik == found.value && next.L == Relax(st.L, found.value);
    }
  }

  /** The fast method's step is accounted for. */
  lemma FastAccounting<X>(p: Problem<X>, sqrt: real -> real, st: UState<X>, fuel: nat)
    requires Consistent(p) && IsSqrt(sqrt) && Valid(p, st) && st.kind.Fast?
    ensures Accounted(p, sqrt, st, fuel, FastStep(p, sqrt, st, fuel))
  {
    var found := FastSearch(p, sqrt, st, fuel);
    if found.Some? {
      assert Accepts(p, sqrt, st, found.value);
    }
  }

  /** Every step of the three methods is accounted for. */
  lemma StepAccounting<X>(p: Problem<X>, sqrt: real -> real, st: UState<X>, fuel: nat)
    requires Consistent(p) && IsSqrt(sqrt) && Valid(p, st)
    ensures Accounted(p, sqrt, st, fuel, Step(p, sqrt, st, fuel))
  {
    match st.kind
    case Primal => PrimalAccounting(p, sqrt, st, fuel);
    case Dual => DualAccounting(p, sqrt, st, fuel);
    case Fast => FastAccounting(p, sqrt, st, fuel);
  }

  /**
   * The first step of the primal and dual methods reports the initial point
   * with the oracle's value there, after one call, before the search starts.
   */
  lemma FirstNoticeShowsStart<X>(p: Problem<X>, st: UState<X>)
    requires Consistent(p) && Valid(p, st) && QueriesFirst(st)
    ensures |FirstNotices(p, st)| == 1
    ensures FirstNotices(p, st)[0].lambda == st.hat && FirstNotices(p, st)[0].d == p.oracle(st.hat).d
    ensures FirstNotices(p, st)[0].oracleCalls == st.oracleCalls + 1
  {
  }

  /**
   * A finished step reports the hat iterate when averaging is off; with
   * averaging on, the primal and dual methods report the projected tilde
   * point and the fast method reports `y`, each with the oracle's answer at
   * that point.
   */
  lemma StepReports<X>(p: Problem<X>, sqrt: real -> real, st: UState<X>, fuel: nat)
    requires Consistent(p) && IsSqrt(sqrt) && Valid(p, st)
    ensures Step(p, sqrt, st, fuel).raised.None? ==>
              Reported(p, Step(p, sqrt, st, fuel).next,
                       if st.kind.Fast? then Step(p, sqrt, st, fuel).next.y
                       else p.project(Step(p, sqrt, st, fuel).next.lambdaTilde))
  {
  }

  /**
   * In the dual method the new hat iterate is the projection of the
   * advanced `phi`: the step `phi` takes, `g/(2 L_{k+1})`, is the step the
   * accepted test took, `g/(2^i L_k)`.
   */
  lemma DualHatIsProjectedPhi<X>(p: Problem<X>, st: UState<X>, i: nat)
    requires Consistent(p) && Valid(p, st) && st.kind.Dual?
    ensures DualAccepted(p, st, i).hat == p.project(DualAccepted(p, st, i).phi)
  {
    var r := DualAccepted(p, st, i);
    var M := Trial(st.L, i);
    assert 2.0 * r.L == M;
    assert r.phi == BregmanMap(M, st.phi, st.gHat);
    assert r.hat == ProjectedBregman(p, M, st.phi, st.gHat);
  }

  /**
   * The fast method's bookkeeping: `A_{k+1} = A_k + a_{k+1}` equals
   * `M a_{k+1}^2` for the accepted constant `M = 2^i L_k`, and
   * `tau = a/A_{k+1}` lies in `(0, 1]`, equal to 1 exactly on the first step
   * (while `A_k = 0`).
   */
  lemma FastBookkeeping<X>(p: Problem<X>, sqrt: real -> real, st: UState<X>, i: nat)
    requires Consistent(p) && IsSqrt(sqrt) && Valid(p, st) && st.kind.Fast?
    ensures FastAccepted(p, sqrt, st, i).A == st.A + FastAccepted(p, sqrt, st, i).a
    ensures Pow2(i) * st.L * FastAccepted(p, sqrt, st, i).a * FastAccepted(p, sqrt, st, i).a
            == FastAccepted(p, sqrt, st, i).A
    ensures FastAccepted(p, sqrt, st, i).tau * FastAccepted(p, sqrt, st, i).A == FastAccepted(p, sqrt, st, i).a
    ensures 0.0 < FastAccepted(p, sqrt, st, i).tau <= 1.0
    ensures FastAccepted(p, sqrt, st, i).tau == 1.0 <==> st.A == 0.0
  {
    var r := FastAccepted(p, sqrt, st, i);
    var a := FastCoefficient(sqrt, st.A, st.L, i);
    FastCoefficientRoot(sqrt, st.A, st.L, i);
    FastTau(a, st.A);
    assert r.a == a && r.A == st.A + a && r.tau == a / (st.A + a);
  }

  /**
   * When the projection lands in a box and `y` starts in it, the fast
   * method's test point and new `y` stay in it: both are convex
   * combinations, with weight `tau`, of projected points and the old `y`.
   */
  lemma FastStaysInBox<X>(p: Problem<X>, sqrt: real -> real, st: UState<X>, i: nat, lo: real, hi: real)
    requires Consistent(p) && IsSqrt(sqrt) && Valid(p, st) && st.kind.Fast?
    requires forall v: Vec :: InBox(p.project(v), lo, hi)
    requires InBox(st.y, lo, hi)
    ensures InBox(FastAccepted(p, sqrt, st, i).y, lo, hi) && InBox(FastAccepted(p, sqrt, st, i).hat, lo, hi)
  {
    var v := p.project(st.phi);
    var c := FastCandidateAt(p, sqrt, st, i);
    FastCandidateShape(p, sqrt, st, i);
    assert InBox(v, lo, hi) && InBox(c.hat, lo, hi);
    CombineInBox(c.tau, v, 1.0 - c.tau, st.y, lo, hi);
    CombineInBox(c.tau, c.hat, 1.0 - c.tau, st.y, lo, hi);
  }

  /** The fast candidate's points: the test point and `y` mix projected points with the old `y` by `tau`. */
  lemma FastCandidateShape<X>(p: Problem<X>, sqrt: real -> real, st: UState<X>, i: nat)
    requires Consistent(p) && IsSqrt(sqrt) && Valid(p, st)
    ensures var c := FastCandidateAt(p, sqrt, st, i);
            && c.test == Combine(c.tau, p.project(st.phi), 1.0 - c.tau, st.y)
            && c.y == Combine(c.tau, c.hat, 1.0 - c.tau, st.y)
            && c.hat == p.project(Add(p.project(st.phi), Scale(c.a, c.atTest.g)))
  {
  }

  /** Averaging in the value `c` keeps the value sum at `c` times the weight, and the averaged value at `c`. */
  lemma ValueAverageKeepsConstant(avg: Average, w: real, v: Vec, c: real)
    requires |v| == |avg.sumLambda| && avg.weight >= 0.0 && w > 0.0 && avg.sumD == c * avg.weight
    ensures Accumulate(avg, w, v, c).sumD == c * Accumulate(avg, w, v, c).weight
    ensures TildeOf(Accumulate(avg, w, v, c)).1 == c
  {
    var r := Accumulate(avg, w, v, c);
    assert r.sumD == c * avg.weight + w * c == c * r.weight;
    CrossMultiply(r.sumD, r.weight, c, 1.0);
  }

  /**
   * With the averages started from zero, a primal or dual method on an
   * oracle whose value is the constant `c` reports `d_tilde = c` after every
   * accepted step: the averaged value is a weighted mean of the values seen.
   */
  lemma ConstantValueAveragesToItself<X>(p: Problem<X>, st: UState<X>, i: nat, c: real)
    requires Consistent(p) && Valid(p, st) && !st.kind.Fast?
    requires forall v: Vec :: p.oracle(v).d == c
    requires st.avg.sumD == c * st.avg.weight && st.dHat == c
    ensures var r := if st.kind.Primal? then PrimalAccepted(p, st, i) else DualAccepted(p, st, i);
            r.dTilde == c && r.avg.sumD == c * r.avg.weight && r.dHat == c
  {
    var L' := Relax(st.L, i);
    InversePositive(L');
    if st.kind.Primal? {
      ValueAverageKeepsConstant(st.avg, 1.0 / L', st.hat, c);
    } else {
      ValueAverageKeepsConstant(st.avg, 1.0 / L', DualImage(p, st, i), c);
    }
  }

  /** The primal and dual methods' first step stores the oracle's value at the initial point as the hat value. */
  lemma PreparedStoresValue<X>(p: Problem<X>, st: UState<X>, c: real)
    requires Consistent(p) && Valid(p, st) && QueriesFirst(st)
    requires forall v: Vec :: p.oracle(v).d == c
    ensures Prepared(p, st).dHat == c && Prepared(p, st).avg == st.avg
  {
  }

  /**
   * The `L_k` logger can follow all three methods, recording the constant
   * each notification shows; the visualisation logger can follow the primal
   * and dual methods, which also show the tilde pair, but not the fast one.
   */
  lemma LoggersFollowUniversal<X>(l: ML.Logger<X>, st: UState<X>, now: real)
    requires l.DgmFgmLogger? || l.PgmVisLogger?
    ensures l.DgmFgmLogger? ==> ML.Update(l, Shown(st), now).Success?
                                && ML.Update(l, Shown(st), now).value.lks == l.lks + [st.L]
    ensures l.PgmVisLogger? ==> (ML.Update(l, Shown(st), now).Success? <==> !st.kind.Fast?)
    ensures l.PgmVisLogger? && !st.kind.Fast? ==>
              ML.Update(l, Shown(st), now).value.dTildes == l.dTildes + [st.dTilde]
  {
    if l.DgmFgmLogger? {
      ML.DgmFgmNeedsLk(l, Shown(st), now);
    } else {
      ML.PgmVisNeedsTilde(l, Shown(st), now);
    }
  }
}
