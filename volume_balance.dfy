/** The linear water-balance model: a node of cell area A gains
    A * (c + K * depth) of water (a loss when negative), where each of the
    constant term c and the depth term K is a single value or one value per
    node. */
module VolumeBalance {

  datatype Coef = Scalar(value: real) | PerNode(values: seq<real>)

  /** The pair `(c, K)` of `water_vol_balance_terms`. */
  datatype Terms = Terms(c: Coef, k: Coef)

  /** A coefficient can be read at every node of a grid of `n` nodes. */
  predicate CoefFits(x: Coef, n: nat)
  {
    x.PerNode? ==> n <= |x.values|
  }

  predicate TermsFit(t: Terms, n: nat)
  {
    CoefFits(t.c, n) && CoefFits(t.k, n)
  }

  /** The coefficient that applies at `node`. */
  function CoefAt(x: Coef, node: nat): (v: real)
    requires x.PerNode? ==> node < |x.values|
    ensures x.Scalar? ==> v == x.value
    ensures x.PerNode? ==> v == x.values[node]
  {
    match x
    case Scalar(v) => v
    case PerNode(vs) => vs[node]
  }

  /** `_get_float_water_vol_balance_terms`: the volume gained at `node` once
      on first contact, and the volume gained per unit of depth. */
  function BalanceAt(t: Terms, area: seq<real>, node: nat): (r: (real, real))
    requires node < |area| && TermsFit(t, |area|)
    ensures r.0 == CoefAt(t.c, node) * area[node]
    ensures r.1 == CoefAt(t.k, node) * area[node]
  {
    var cellA := area[node];
    var c := match t.c case PerNode(vs) => vs[node] case Scalar(v) => v;
    var k := match t.k case PerNode(vs) => vs[node] case Scalar(v) => v;
    (c * cellA, k * cellA)
  }

  /** A scalar coefficient behaves as an array holding that value at every node. */
  lemma ScalarIsUniformArray(c: real, k: real, cs: seq<real>, ks: seq<real>, area: seq<real>, node: nat)
    requires node < |area| && |cs| == |area| && |ks| == |area|
    requires forall i :: 0 <= i < |area| ==> cs[i] == c && ks[i] == k
    ensures BalanceAt(Terms(Scalar(c), Scalar(k)), area, node)
         == BalanceAt(Terms(PerNode(cs), PerNode(ks)), area, node)
  {
    assert cs[node] == c && ks[node] == k;
    var l := BalanceAt(Terms(Scalar(c), Scalar(k)), area, node);
    var r := BalanceAt(Terms(PerNode(cs), PerNode(ks)), area, node);
    assert l.0 == r.0 && l.1 == r.1;
  }

  /** With both coefficients losses and a non-negative cell area, both terms are losses. */
  lemma LossesStayLosses(t: Terms, area: seq<real>, node: nat)
    requires node < |area| && TermsFit(t, |area|)
    requires area[node] >= 0.0 && CoefAt(t.c, node) <= 0.0 && CoefAt(t.k, node) <= 0.0
    ensures BalanceAt(t, area, node).0 <= 0.0 && BalanceAt(t, area, node).1 <= 0.0
  {
    var a, c, k := area[node], CoefAt(t.c, node), CoefAt(t.k, node);
    assert c * a <= 0.0 by {
      assert (-c) * a >= 0.0;
    }
    assert k * a <= 0.0 by {
      assert (-k) * a >= 0.0;
    }
  }

  /** The two examples of the source's documentation (areas 1, 3, 5, 7). */
  lemma DocumentedExamples()
    ensures BalanceAt(Terms(Scalar(-3.0), PerNode([0.0, 1.0, 2.0, 3.0])), [1.0, 3.0, 5.0, 7.0], 0)
         == (-3.0, 0.0)
    ensures BalanceAt(Terms(PerNode([0.0, -1.0, -2.0, -3.0]), Scalar(2.0)), [1.0, 3.0, 5.0, 7.0], 3)
         == (-21.0, 14.0)
  {
  }
}
