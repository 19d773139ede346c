/** The decision `_raise_water_level` makes for one lake and one node, on the
    lake's values alone: how far the level rises, and what becomes of the
    lake's accumulated area, remaining volume and accumulated depth term. */
module FillStep {

  /** What one fill step produces: whether the node filled to the requested
      increment, the depth actually added, the lake's new accumulated area,
      remaining volume and accumulated K term, and whether the lake's spill
      node is cleared. */
  datatype Fill = Fill(filled: bool, dz: real, area: real, vol: real, ks: real, clearsSpill: bool)

  /** The lake's area once the node is part of it: a node flooded from
      zero adds its cell area. */
  function AreaAfter(a0: real, cell: real, fromZero: bool): real
  {
    if fromZero then a0 + cell else a0
  }

  /** The budget once the constant term is charged, which happens only on
      first contact with the node. */
  function ChargedBudget(v0: real, cA: real, fromZero: bool): real
  {
    if fromZero then v0 + cA else v0
  }

  /** Volume needed to lift a lake of area `area` by `z`, net of the depth
      term of the node and of the nodes already flooded. */
  function Need(area: real, kA: real, ks0: real, z: real): real
  {
    z * area - (kA + ks0) * z
  }

  /** The constant term alone drives the budget below zero. */
  predicate Underflows(v0: real, cA: real, fromZero: bool)
  {
    fromZero && v0 + cA < 0.0
  }

  /** The fractional depth `vol / need * z` is defined: the only way to
      divide by zero is a negative budget carried onto a node already
      flooded, with nothing needed to lift the lake. */
  predicate FillDefined(a0: real, v0: real, ks0: real, cell: real, cA: real, kA: real, z: real, fromZero: bool)
  {
    fromZero || v0 >= 0.0 || Need(AreaAfter(a0, cell, fromZero), kA, ks0, z) != 0.0
  }

  /** One fill step (lines 737-771). `a0`, `v0`, `ks0` are the lake's area,
      remaining volume and accumulated K term; `cell` is the node's cell
      area and `(cA, kA)` its balance terms; `z` the increment requested. */
  function FillDecision(a0: real, v0: real, ks0: real, cell: real, cA: real, kA: real, z: real, fromZero: bool): (r: Fill)
    requires FillDefined(a0, v0, ks0, cell, cA, kA, z, fromZero)
    ensures r.area == AreaAfter(a0, cell, fromZero)
    ensures r.clearsSpill <==> !r.filled
    ensures r.filled ==> r.dz == z && r.ks == ks0 + kA
    ensures !r.filled ==> r.ks == ks0
    ensures Underflows(v0, cA, fromZero) ==> !r.filled && r.dz == 0.0 && r.vol == v0 + cA
    ensures !Underflows(v0, cA, fromZero) ==>
      (r.filled <==> ChargedBudget(v0, cA, fromZero) >= Need(r.area, kA, ks0, z))
    ensures !Underflows(v0, cA, fromZero) && !r.filled ==> r.vol == 0.0
  {
    var area := AreaAfter(a0, cell, fromZero);
    var vol := ChargedBudget(v0, cA, fromZero);
    if Underflows(v0, cA, fromZero) then
      Fill(false, 0.0, area, vol, ks0, true)
    else
      var need := Need(area, kA, ks0, z);
      if vol < need then
        Fill(false, vol / need * z, area, 0.0, ks0, true)
      else
        Fill(true, z, area, vol - need, ks0 + kA, false)
  }

  /** Volume is conserved by every step that passes the first-contact
      charge: what leaves the budget is the lake's net area times the depth
      actually added. With no balance terms this is area times depth. */
  lemma FillConservesVolume(a0: real, v0: real, ks0: real, cell: real, cA: real, kA: real, z: real, fromZero: bool)
    requires FillDefined(a0, v0, ks0, cell, cA, kA, z, fromZero)
    requires !Underflows(v0, cA, fromZero)
    ensures var r := FillDecision(a0, v0, ks0, cell, cA, kA, z, fromZero);
      ChargedBudget(v0, cA, fromZero) - r.vol == (r.area - kA - ks0) * r.dz
  {
    var r := FillDecision(a0, v0, ks0, cell, cA, kA, z, fromZero);
    var vol := ChargedBudget(v0, cA, fromZero);
    var x := r.area - kA - ks0;
    var need := Need(r.area, kA, ks0, z);
    assert need == x * z;
    if !r.filled {
      assert need != 0.0;
      assert r.dz == vol / need * z;
      calc {
        x * r.dz;
        x * (vol / need * z);
        (vol / need) * (x * z);
        (vol / need) * need;
        vol;
      }
    }
  }

  /** Levels rise, and never past the node's level, as long as the budget
      is not already negative on a node the lake has flooded: a step
      requested for a non-negative increment then adds a depth in [0, z],
      and one that does not fill adds strictly less than z. The excluded
      case does happen (`NegativeBudgetLowersLevel`). */
  lemma FillDepthBounds(a0: real, v0: real, ks0: real, cell: real, cA: real, kA: real, z: real, fromZero: bool)
    requires z >= 0.0 && (fromZero || v0 >= 0.0)
    ensures FillDefined(a0, v0, ks0, cell, cA, kA, z, fromZero)
    ensures var r := FillDecision(a0, v0, ks0, cell, cA, kA, z, fromZero);
      0.0 <= r.dz <= z && (!r.filled && !Underflows(v0, cA, fromZero) ==> r.dz < z)
  {
    var r := FillDecision(a0, v0, ks0, cell, cA, kA, z, fromZero);
    if !r.filled && !Underflows(v0, cA, fromZero) {
      var vol := ChargedBudget(v0, cA, fromZero);
      var need := Need(r.area, kA, ks0, z);
      assert 0.0 <= vol < need;
      var frac := vol / need;
      assert 0.0 <= frac < 1.0 by {
        assert frac * need == vol;
      }
      assert r.dz == frac * z;
      if z > 0.0 {
        assert frac * z < 1.0 * z;
      }
    }
  }

  /** With no balance terms and a budget no smaller than the area times
      the increment, the step fills; with less, the lake rises by exactly
      budget / area and the budget is spent. */
  lemma FillWithoutLosses(a0: real, v0: real, cell: real, z: real, fromZero: bool)
    requires AreaAfter(a0, cell, fromZero) > 0.0 && v0 >= 0.0
    ensures var r := FillDecision(a0, v0, 0.0, cell, 0.0, 0.0, z, fromZero);
      (r.filled <==> v0 >= r.area * z) &&
      (!r.filled ==> r.dz == v0 / r.area && r.vol == 0.0) &&
      (r.filled ==> r.vol == v0 - r.area * z)
  {
    var r := FillDecision(a0, v0, 0.0, cell, 0.0, 0.0, z, fromZero);
    var need := Need(r.area, 0.0, 0.0, z);
    assert need == r.area * z;
    if !r.filled {
      assert need > 0.0 && z != 0.0;
      calc {
        r.dz;
        v0 / need * z;
        v0 / (r.area * z) * z;
        v0 / r.area;
      }
    }
  }

  /** A budget left negative by an underflowing first contact, carried onto
      the node already flooded, lowers the level: the fractional depth
      `vol / need * z` is then negative. */
  lemma NegativeBudgetLowersLevel()
    ensures FillDefined(1.0, -1.0, 0.0, 1.0, 0.0, 0.0, 1.0, false)
    ensures var r := FillDecision(1.0, -1.0, 0.0, 1.0, 0.0, 0.0, 1.0, false);
      !r.filled && r.dz == -1.0
  {
  }

  /** The five documented calls of the fill evaluator, run one after the
      other on one lake (two of its values are reset by hand between the
      third and the fourth call). */
  lemma DocumentedFills()
    ensures FillDecision(3.0, 100.0, 0.0, 4.0, 0.0, 0.0, 3.0, true)
         == Fill(true, 3.0, 7.0, 79.0, 0.0, false)
    ensures FillDecision(7.0, 79.0, 0.0, 2.0, -10.0, 0.0, 4.0, true)
         == Fill(true, 4.0, 9.0, 33.0, 0.0, false)
    ensures FillDecision(9.0, 33.0, 0.0, 1.0, -34.0, -3.0, 1.0, true)
         == Fill(false, 0.0, 10.0, -1.0, 0.0, true)
    ensures FillDecision(10.0, 87.0, 0.0, 1.0, -34.0, -3.0, 2.0, false)
         == Fill(true, 2.0, 10.0, 61.0, -3.0, false)
    ensures FillDecision(10.0, 61.0, -3.0, 2.0, 4.0, 2.0, 10.0, true)
         == Fill(false, 5.0, 12.0, 0.0, -3.0, true)
  {
  }
}
