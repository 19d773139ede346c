/** The scan of a newly flooded node's neighbours (lines 430-458), as a fold
    over the neighbour list on values: the lake map, the lake's frontier
    queue, the master queue of lakes and the stop flag. */
module NeighbourScan {
  import opened StablePQ
  import opened LakeCodes

  /** What the scan reads and never changes: the current lake, the pit the
      codes were made from when the raise began, the flooded node, the
      lake's level, the water surface and the closed mask. */
  datatype Ctx = Ctx(cpit: int, codePit: int, cnode: int, level: real, surf: seq<real>, closed: seq<bool>)

  /** What the scan changes. */
  datatype Scan = Scan(lm: seq<int>, q: seq<Entry>, mq: seq<Entry>, stop: bool)

  predicate Fits(ctx: Ctx, lm: seq<int>)
  {
    |ctx.surf| == |lm| && |ctx.closed| == |lm| && 0 <= ctx.cnode < |lm| && 0 <= ctx.codePit < |lm|
  }

  predicate NodesIn(nbs: seq<int>, n: int)
  {
    forall k :: 0 <= k < |nbs| ==> 0 <= nbs[k] < n
  }

  /** The flooded node is not among its own neighbours. */
  predicate NotSelf(ctx: Ctx, nbs: seq<int>)
  {
    forall k :: 0 <= k < |nbs| ==> nbs[k] != ctx.cnode
  }

  /** A neighbour the scan looks at: open, and marked neither as flooded by
      this lake nor as this lake's candidate. */
  predicate Open(ctx: Ctx, lm: seq<int>, nb: int)
    requires Fits(ctx, lm) && 0 <= nb < |lm|
  {
    !ctx.closed[nb] && lm[nb] != ctx.cpit && lm[nb] != NghbCode(ctx.codePit, |lm|)
  }

  /** An open neighbour below the flooded node: the node is a sill. */
  predicate Downhill(ctx: Ctx, lm: seq<int>, nb: int)
    requires Fits(ctx, lm) && 0 <= nb < |lm|
  {
    Open(ctx, lm, nb) && ctx.surf[nb] < ctx.surf[ctx.cnode]
  }

  /** An open neighbour at or above the flooded node: a new candidate. */
  predicate Uphill(ctx: Ctx, lm: seq<int>, nb: int)
    requires Fits(ctx, lm) && 0 <= nb < |lm|
  {
    Open(ctx, lm, nb) && ctx.surf[nb] >= ctx.surf[ctx.cnode]
  }

  /** One pass of the loop body, for neighbour `nb`. */
  function Step(ctx: Ctx, s: Scan, nb: int): (r: Scan)
    requires Fits(ctx, s.lm) && 0 <= nb < |s.lm|
    ensures |r.lm| == |s.lm|
  {
    if !Open(ctx, s.lm, nb) then s
    else if ctx.surf[nb] < ctx.surf[ctx.cnode] then
      s.(lm := s.lm[ctx.cnode := SpillCode(ctx.codePit, |s.lm|)],
         mq := Added(s.mq, ctx.cpit, ctx.level),
         stop := true)
    else
      s.(q := Added(s.q, nb, ctx.surf[nb]),
         lm := s.lm[nb := CandidateMark(s.lm[nb], ctx.codePit, |s.lm|)])
  }

  /** The loop over the neighbours `nbs`, in order. */
  function Fold(ctx: Ctx, s: Scan, nbs: seq<int>): (r: Scan)
    requires Fits(ctx, s.lm) && NodesIn(nbs, |s.lm|)
    ensures |r.lm| == |s.lm|
    decreases |nbs|
  {
    if nbs == [] then s
    else Step(ctx, Fold(ctx, s, nbs[..|nbs| - 1]), nbs[|nbs| - 1])
  }

  /** The fold over one more neighbour is one more step. */
  lemma FoldSnoc(ctx: Ctx, s: Scan, nbs: seq<int>, i: nat)
    requires Fits(ctx, s.lm) && NodesIn(nbs, |s.lm|) && i < |nbs|
    ensures NodesIn(nbs[..i], |s.lm|) && NodesIn(nbs[..i + 1], |s.lm|)
    ensures Fold(ctx, s, nbs[..i + 1]) == Step(ctx, Fold(ctx, s, nbs[..i]), nbs[i])
  {
    assert nbs[..i + 1][..i] == nbs[..i];
  }

  /** The entry of a node below the flooded node is never touched: the
      scan only writes the flooded node and uphill neighbours. */
  lemma {:induction false} FoldKeepsLowerCodes(ctx: Ctx, s: Scan, nbs: seq<int>, d: int)
    requires Fits(ctx, s.lm) && NodesIn(nbs, |s.lm|) && NotSelf(ctx, nbs)
    requires 0 <= d < |s.lm| && d != ctx.cnode && ctx.surf[d] < ctx.surf[ctx.cnode]
    ensures Fold(ctx, s, nbs).lm[d] == s.lm[d]
    decreases |nbs|
  {
    if nbs != [] {
      var init := nbs[..|nbs| - 1];
      FoldKeepsLowerCodes(ctx, s, init, d);
    }
  }

  /** Some neighbour in `nbs` is an open one below the flooded node. */
  predicate AnyDownhill(ctx: Ctx, lm: seq<int>, nbs: seq<int>)
    requires Fits(ctx, lm) && NodesIn(nbs, |lm|)
  {
    exists k :: 0 <= k < |nbs| && Downhill(ctx, lm, nbs[k])
  }

  lemma AnyDownhillSnoc(ctx: Ctx, lm: seq<int>, nbs: seq<int>)
    requires Fits(ctx, lm) && NodesIn(nbs, |lm|) && nbs != []
    ensures NodesIn(nbs[..|nbs| - 1], |lm|)
    ensures AnyDownhill(ctx, lm, nbs)
         == (AnyDownhill(ctx, lm, nbs[..|nbs| - 1]) || Downhill(ctx, lm, nbs[|nbs| - 1]))
  {
    var init := nbs[..|nbs| - 1];
    if AnyDownhill(ctx, lm, init) {
      var k :| 0 <= k < |init| && Downhill(ctx, lm, init[k]);
      assert nbs[k] == init[k];
    }
    if AnyDownhill(ctx, lm, nbs) {
      var k :| 0 <= k < |nbs| && Downhill(ctx, lm, nbs[k]);
      if k < |init| {
        assert init[k] == nbs[k];
      }
    }
  }

  /** A downhill neighbour is an open node below the flooded one. */
  lemma DownhillIsLowerOpen(ctx: Ctx, lm: seq<int>, nbs: seq<int>)
    requires Fits(ctx, lm) && NodesIn(nbs, |lm|) && AnyDownhill(ctx, lm, nbs)
    ensures exists k :: 0 <= k < |nbs| && !ctx.closed[nbs[k]] && ctx.surf[nbs[k]] < ctx.surf[ctx.cnode]
  {
    var k :| 0 <= k < |nbs| && Downhill(ctx, lm, nbs[k]);
    assert !ctx.closed[nbs[k]];
  }

  /** Whether a sill lies under the flooded node reads the same in the map
      the scan leaves as in the one it began with: the scan never writes a
      node below the flooded one. */
  lemma FoldKeepsDownhill(ctx: Ctx, s: Scan, nbs: seq<int>)
    requires Fits(ctx, s.lm) && NodesIn(nbs, |s.lm|) && NotSelf(ctx, nbs)
    ensures AnyDownhill(ctx, Fold(ctx, s, nbs).lm, nbs) == AnyDownhill(ctx, s.lm, nbs)
  {
    var r := Fold(ctx, s, nbs);
    forall k | 0 <= k < |nbs| && ctx.surf[nbs[k]] < ctx.surf[ctx.cnode]
      ensures Downhill(ctx, r.lm, nbs[k]) == Downhill(ctx, s.lm, nbs[k])
    {
      FoldKeepsLowerCodes(ctx, s, nbs, nbs[k]);
    }
  }

  /** The scan reports a sill exactly when some open neighbour lies below
      the flooded node; in that case it marks the flooded node with the spill
      code and puts the lake in the master queue at its level, and otherwise
      it leaves both alone. */
  lemma {:induction false} FoldSill(ctx: Ctx, s: Scan, nbs: seq<int>)
    requires Fits(ctx, s.lm) && NodesIn(nbs, |s.lm|) && NotSelf(ctx, nbs)
    ensures var r := Fold(ctx, s, nbs);
      var down := AnyDownhill(ctx, s.lm, nbs);
      && r.stop == (s.stop || down)
      && r.lm[ctx.cnode] == (if down then SpillCode(ctx.codePit, |s.lm|) else s.lm[ctx.cnode])
      && r.mq == (if down then Added(s.mq, ctx.cpit, ctx.level) else s.mq)
    decreases |nbs|
  {
    if nbs != [] {
      var init, nb := nbs[..|nbs| - 1], nbs[|nbs| - 1];
      AnyDownhillSnoc(ctx, s.lm, nbs);
      var p := Fold(ctx, s, init);
      FoldSill(ctx, s, init);
      assert nb != ctx.cnode;
      assert Downhill(ctx, p.lm, nb) == Downhill(ctx, s.lm, nb) by {
        if ctx.surf[nb] < ctx.surf[ctx.cnode] {
          FoldKeepsLowerCodes(ctx, s, init, nb);
        }
      }
      var r := Step(ctx, p, nb);
      assert Fold(ctx, s, nbs) == r;
      if Downhill(ctx, p.lm, nb) {
        assert r.mq == Added(p.mq, ctx.cpit, ctx.level);
        if AnyDownhill(ctx, s.lm, init) {
          AddedTwice(s.mq, ctx.cpit, ctx.level);
        }
      } else {
        assert r.mq == p.mq && r.stop == p.stop;
        assert r.lm[ctx.cnode] == p.lm[ctx.cnode];
      }
    }
  }

  /** The entry of every node other than the flooded one ends up as the
      candidate mark of its initial entry when it is an uphill open
      neighbour, and unchanged otherwise; so no entry is ever lowered and
      nodes outside the neighbour list are left alone. */
  lemma {:induction false} FoldCodes(ctx: Ctx, s: Scan, nbs: seq<int>, j: int)
    requires Fits(ctx, s.lm) && NodesIn(nbs, |s.lm|)
    requires 0 <= j < |s.lm| && j != ctx.cnode
    ensures Fold(ctx, s, nbs).lm[j]
         == if j in nbs && Uphill(ctx, s.lm, j) then CandidateMark(s.lm[j], ctx.codePit, |s.lm|) else s.lm[j]
    decreases |nbs|
  {
    if nbs != [] {
      var init, nb := nbs[..|nbs| - 1], nbs[|nbs| - 1];
      assert nbs == init + [nb];
      FoldCodes(ctx, s, init, j);
    }
  }

  /** Every uphill open neighbour is in the frontier queue at its own
      elevation once the scan is over; every entry the scan leaves in the
      queue was there before or is such a neighbour's; and every entry of a
      task that is not such a neighbour stays in the queue. */
  lemma {:induction false} FoldQueue(ctx: Ctx, s: Scan, nbs: seq<int>)
    requires Fits(ctx, s.lm) && NodesIn(nbs, |s.lm|) && NotSelf(ctx, nbs)
    ensures var r := Fold(ctx, s, nbs);
      forall k :: 0 <= k < |nbs| && Uphill(ctx, s.lm, nbs[k]) ==> Entry(nbs[k], ctx.surf[nbs[k]]) in r.q
    ensures var r := Fold(ctx, s, nbs);
      forall e :: e in r.q ==>
        e in s.q || exists k :: 0 <= k < |nbs| && Uphill(ctx, s.lm, nbs[k]) && e == Entry(nbs[k], ctx.surf[nbs[k]])
    ensures var r := Fold(ctx, s, nbs);
      forall e :: e in s.q && (forall k :: 0 <= k < |nbs| && nbs[k] == e.task ==> !Uphill(ctx, s.lm, nbs[k]))
        ==> e in r.q
    decreases |nbs|
  {
    if nbs != [] {
      var init, nb := nbs[..|nbs| - 1], nbs[|nbs| - 1];
      var p := Fold(ctx, s, init);
      var r := Fold(ctx, s, nbs);
      FoldQueue(ctx, s, init);
      assert r == Step(ctx, p, nb);
      // the step adds `nb` only when it is uphill in the map the scan began with
      assert Uphill(ctx, p.lm, nb) ==> Uphill(ctx, s.lm, nb) by {
        FoldCodes(ctx, s, init, nb);
      }
      forall k | 0 <= k < |nbs| && Uphill(ctx, s.lm, nbs[k])
        ensures Entry(nbs[k], ctx.surf[nbs[k]]) in r.q
      {
        if k < |init| {
          assert init[k] == nbs[k];
          var e := Entry(nbs[k], ctx.surf[nbs[k]]);
          assert e in p.q;
          if Uphill(ctx, p.lm, nb) && ctx.surf[nb] >= ctx.surf[ctx.cnode] {
            assert e.task != nb || e == Entry(nb, ctx.surf[nb]);
          }
        } else {
          assert nbs[k] == nb;
          FoldCodes(ctx, s, init, nb);
          if nb in init {
            var i :| 0 <= i < |init| && init[i] == nb;
            assert Entry(init[i], ctx.surf[init[i]]) in p.q;
          }
        }
      }
      forall e | e in r.q
        ensures e in s.q || exists k :: 0 <= k < |nbs| && Uphill(ctx, s.lm, nbs[k]) && e == Entry(nbs[k], ctx.surf[nbs[k]])
      {
        if e !in p.q {
          assert e == Entry(nb, ctx.surf[nb]) && Uphill(ctx, p.lm, nb);
          assert nbs[|nbs| - 1] == nb;
        } else if e !in s.q {
          var k :| 0 <= k < |init| && Uphill(ctx, s.lm, init[k]) && e == Entry(init[k], ctx.surf[init[k]]);
          assert nbs[k] == init[k];
        }
      }
      forall e | e in s.q && (forall k :: 0 <= k < |nbs| && nbs[k] == e.task ==> !Uphill(ctx, s.lm, nbs[k]))
        ensures e in r.q
      {
        forall k | 0 <= k < |init| && init[k] == e.task ensures !Uphill(ctx, s.lm, init[k]) {
          assert nbs[k] == init[k];
        }
        assert e in p.q;
        assert nbs[|nbs| - 1] == nb;
        if e.task == nb {
          assert !Uphill(ctx, s.lm, nb);
        }
      }
    }
  }
}
