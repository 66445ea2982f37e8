/**
 * `invert_oracle_sense`: wrapping an oracle so that a method written for
 * one sense of optimisation can be run on a problem of the other.
 */
module OracleUtils {
  import opened Vectors
  import opened Protocol

  /** The wrapped oracle: the same primal point, the negated value and the negated subgradient. */
  function InvertOracleSense<X>(oracle: Vec -> OracleAnswer<X>): (inv: Vec -> OracleAnswer<X>)
    ensures forall v: Vec :: inv(v).x == oracle(v).x
    ensures forall v: Vec :: inv(v).d == -oracle(v).d
    ensures forall v: Vec :: |inv(v).g| == |oracle(v).g|
    ensures forall v: Vec :: forall i :: 0 <= i < |oracle(v).g| ==> inv(v).g[i] == -oracle(v).g[i]
  {
    (v: Vec) => var a := oracle(v); OracleAnswer(a.x, -a.d, Neg(a.g))
  }

  /** Inverting twice gives back the original oracle's answer at every point. */
  lemma InvertTwiceIsIdentity<X>(oracle: Vec -> OracleAnswer<X>, v: Vec)
    ensures InvertOracleSense(InvertOracleSense(oracle))(v) == oracle(v)
  {
    var once := InvertOracleSense(oracle);
    var twice := InvertOracleSense(once);
    assert twice(v).g == Neg(once(v).g);
    assert once(v).g == Neg(oracle(v).g);
    assert Neg(Neg(oracle(v).g)) == oracle(v).g;
  }

  /** Wrapping the oracle keeps a problem's dimensions consistent. */
  lemma InvertKeepsConsistent<X>(p: Problem<X>)
    requires Consistent(p)
    ensures Consistent(p.(oracle := InvertOracleSense(p.oracle)))
  {
  }

  /**
   * A supergradient of the value becomes a subgradient of the negated
   * value: if `d(mu) <= d(lambda) + <g, mu - lambda>` then the inverted
   * oracle's answers satisfy the reverse inequality.
   */
  lemma InvertFlipsSupergradient<X>(oracle: Vec -> OracleAnswer<X>, lambda: Vec, mu: Vec)
    requires |oracle(lambda).g| == |lambda| == |mu|
    requires oracle(mu).d <= oracle(lambda).d + Dot(oracle(lambda).g, Sub(mu, lambda))
    ensures InvertOracleSense(oracle)(mu).d
            >= InvertOracleSense(oracle)(lambda).d + Dot(InvertOracleSense(oracle)(lambda).g, Sub(mu, lambda))
  {
    var inv := InvertOracleSense(oracle);
    assert inv(lambda).g == Neg(oracle(lambda).g);
    DotNegLeft(oracle(lambda).g, Sub(mu, lambda));
  }
}
