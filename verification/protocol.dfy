/**
 * The iteration protocol every dual method shares: the oracle and projection
 * a method is built around, the public fields an observer may read at a
 * notification, and the shape of one call to `dual_step`.
 */
module Protocol {
  import opened Wrappers
  import opened Vectors

  /** What the oracle returns for one multiplier vector: `(x_k, d_k, diff_d_k)`. */
  datatype OracleAnswer<X> = OracleAnswer(x: X, d: real, g: Vec)

  /**
   * The collaborators a method is constructed with: the oracle, the
   * projection onto the dual domain, and the problem dimension.
   */
  datatype Problem<X> = Problem(oracle: Vec -> OracleAnswer<X>, project: Vec -> Vec, dim: nat)

  /**
   * The dimension agreement the methods rely on but never check: on points
   * of the problem's dimension, the projection keeps that dimension and
   * every subgradient has it too.
   */
  ghost predicate Consistent<X>(p: Problem<X>) {
    forall v: Vec | |v| == p.dim :: |p.project(v)| == p.dim && |p.oracle(v).g| == p.dim
  }

  /** The projection contract: projecting twice is projecting once. */
  ghost predicate Idempotent(project: Vec -> Vec) {
    forall v: Vec :: project(project(v)) == project(v)
  }

  /** A point of the dual domain, i.e. a fixed point of the projection. */
  predicate Feasible(project: Vec -> Vec, v: Vec) {
    project(v) == v
  }

  /** Under an idempotent projection every projected point is feasible. */
  lemma ProjectedIsFeasible(project: Vec -> Vec, v: Vec)
    requires Idempotent(project)
    ensures Feasible(project, project(v))
  {
  }

  /**
   * Fields beyond `lambda_k`, `d_k`, `x_k` and `oracle_calls` that only some
   * methods have: the universal methods' `L_k`, and the primal/dual universal
   * methods' `(lambda_tilde_k, d_tilde_k)`.
   */
  datatype Extras = Extras(lk: Option<real>, tilde: Option<(Vec, real)>)

  const NoExtras: Extras := Extras(None, None)

  /**
   * The public state an observer sees at one notification. The template
   * method only has `x` and `oracle_calls`; every dual method has
   * `lambda_k`, `d_k`, `x_k` (absent until an oracle call fills it) and
   * `oracle_calls`.
   */
  datatype View<X> =
    | TemplateView(x: int, oracleCalls: nat)
    | DualView(lambda: Vec, d: real, primal: Option<X>, oracleCalls: nat, extras: Extras)

  /** The exceptions a step can end in. */
  datatype Error =
    | ValueError          // unsupported triple-averaging variant
    | ZeroDivisionError   // a float division by zero
    | SearchExhausted     // the doubling search ran out of fuel (the source would loop on)

  /**
   * One call to `dual_step`: the state afterwards, the notifications sent
   * during the call, in order, and the exception it raised, if any. When an
   * exception is raised, `next` is the state at the moment of raising.
   */
  datatype Stepped<S, X> = Stepped(next: S, notices: seq<View<X>>, raised: Option<Error>)
}
