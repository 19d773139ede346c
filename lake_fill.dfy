/** The mass-conserving lake filler of lines 82-506 and 737-771: each lake,
    named by its pit, is raised node by node in order of the water surface,
    spending its remaining volume, until it runs dry, meets a sill, drains
    over a boundary node or touches another lake's spill and merges with it. */
module LakeFill {
  import opened StablePQ
  import opened LakeCodes
  import opened VolumeBalance
  import opened FillStep
  import opened NeighbourScan

  /** What the filler keeps for one lake, under the lake's pit: its entries
      in `lake_water_level`, `accum_area_at_pit`, `vol_rem_at_pit`,
      `accum_Ks_at_pit`, `lake_is_full` and `lake_spill_node` (-1 for none),
      and the entries of its frontier queue in `lake_q_dict`. */
  datatype Lake = Lake(level: real, area: real, vol: real, ks: real, full: bool, spill: int, frontier: seq<Entry>)

  /** How a raise ends. The first four are the source's own endings. The
      next four are where the source raises an exception, at once or, for
      `SelfMerge`, after corrupting its dictionaries. `ZeroDivision` is where
      the source divides by zero; on numpy floats that gives an infinite or
      undefined depth rather than an exception, and the model stops there.
      `OutOfFuel` is the bound on the number of passes of the loop. */
  datatype Stop =
    | AlreadySpilled                     // the lake has a spill node: nothing happens
    | Exhausted(cnode: int, nnode: int)  // the water ran out while flooding `cnode`
    | Drained(node: int)                 // the lake reached a draining boundary node
    | Sill(node: int)                    // the lake reached a node with an open lower neighbour
    | EmptyQueue                         // `pop_task` on an empty frontier queue
    | UnknownLake(pit: int)              // a spill code names a pit that is no longer a lake
    | LevelMismatch(pit: int)            // the two lakes to merge stand at different levels
    | SelfMerge                          // the lake met a spill code of its own
    | ZeroDivision                       // a negative budget with nothing needed to lift the lake
    | OutOfFuel

  /** `_merge_two_lakes` keeps the lake whose pit is lower; on a tie it keeps
      `thatPit`, the lake being merged into the current one. */
  function LowPit(z: seq<real>, thisPit: int, thatPit: int): (low: int)
    requires 0 <= thisPit < |z| && 0 <= thatPit < |z|
    ensures low == thisPit || low == thatPit
    ensures z[low] <= z[thisPit] && z[low] <= z[thatPit]
    ensures z[thisPit] == z[thatPit] ==> low == thatPit
  {
    if z[thisPit] < z[thatPit] then thisPit else thatPit
  }

  /** `lake_map[lake_map == hi] = lo`: the nodes of lake `hi` pass to lake
      `lo`, and nothing else changes. */
  function Relabelled(lm: seq<int>, hi: int, lo: int): (r: seq<int>)
    ensures |r| == |lm|
    ensures forall i :: 0 <= i < |r| ==> (r[i] == lo <==> lm[i] == lo || lm[i] == hi)
    ensures hi != lo ==> forall i :: 0 <= i < |r| ==> r[i] != hi
    ensures forall i :: 0 <= i < |r| && lm[i] != hi ==> r[i] == lm[i]
  {
    seq(|lm|, i requires 0 <= i < |lm| => if lm[i] == hi then lo else lm[i])
  }

  /** The three quantities a merge adds up. */
  datatype Amount = Area | Volume | KTerm

  function AmountOf(l: Lake, a: Amount): real
  {
    match a
    case Area => l.area
    case Volume => l.vol
    case KTerm => l.ks
  }

  /** The surviving lake after it absorbs lake `hi`
      (`dct[low_pit] += dct.pop(hi_pit)`, `merge_queues`): area, volume and
      K term add up, the level and full flag are the survivor's, the spill
      node is cleared and the frontier queues are merged. */
  function Absorbed(lo: Lake, hi: Lake): (r: Lake)
    ensures forall a :: AmountOf(r, a) == AmountOf(lo, a) + AmountOf(hi, a)
    ensures r.level == lo.level && r.full == lo.full && r.spill == -1
    ensures Tasks(r.frontier) == Tasks(lo.frontier) + Tasks(hi.frontier)
  {
    Lake(lo.level, lo.area + hi.area, lo.vol + hi.vol, lo.ks + hi.ks, lo.full, -1,
         Merged(lo.frontier, hi.frontier))
  }

  /** The map of lakes once `lo` has absorbed `hi`. */
  function MergedLakes(m: map<int, Lake>, lo: int, hi: int): (r: map<int, Lake>)
    requires lo in m && hi in m && lo != hi
    ensures r.Keys == m.Keys - {hi}
    ensures forall p :: p in r && p != lo ==> r[p] == m[p]
  {
    (m - {hi})[lo := Absorbed(m[lo], m[hi])]
  }

  /** The sum of one amount over the lakes whose pits are below `k`. */
  function TotalBelow(m: map<int, Lake>, a: Amount, k: nat): real
  {
    if k == 0 then 0.0
    else TotalBelow(m, a, k - 1) + (if k - 1 in m then AmountOf(m[k - 1], a) else 0.0)
  }

  /** `r` is `m` with lake `hi` folded into lake `lo`, as far as amount `a` goes. */
  ghost predicate FoldedInto(r: map<int, Lake>, m: map<int, Lake>, lo: int, hi: int, a: Amount)
  {
    && lo in m && hi in m && lo != hi && lo in r && hi !in r
    && AmountOf(r[lo], a) == AmountOf(m[lo], a) + AmountOf(m[hi], a)
    && forall p :: p != lo && p != hi ==> (p in r <==> p in m) && (p in r ==> r[p] == m[p])
  }

  /** Below `k`, `r` holds what `m` held, moved from `hi` to `lo`: lake
      `hi`'s amount is gained if `lo` is below `k`, and lost if `hi` is. */
  lemma {:induction false} FoldedBelow(r: map<int, Lake>, m: map<int, Lake>, lo: int, hi: int, a: Amount, k: nat)
    requires FoldedInto(r, m, lo, hi, a) && 0 <= lo && 0 <= hi
    ensures TotalBelow(r, a, k)
         == TotalBelow(m, a, k) + (if lo < k then AmountOf(m[hi], a) else 0.0)
                                - (if hi < k then AmountOf(m[hi], a) else 0.0)
  {
    if k > 0 {
      var p := k - 1;
      FoldedBelow(r, m, lo, hi, a, p);
      if p == lo {
        assert AmountOf(r[p], a) == AmountOf(m[p], a) + AmountOf(m[hi], a);
      } else if p == hi {
        assert p !in r && p in m;
      } else {
        assert (p in r <==> p in m) && (p in r ==> r[p] == m[p]);
      }
    }
  }

  /** Merging two lakes conserves the total area, the total remaining
      volume and the total K term over all lakes of a grid of `n` nodes. */
  lemma MergeConserves(m: map<int, Lake>, lo: int, hi: int, a: Amount, n: nat)
    requires lo in m && hi in m && lo != hi && 0 <= lo < n && 0 <= hi < n
    ensures TotalBelow(MergedLakes(m, lo, hi), a, n) == TotalBelow(m, a, n)
  {
    var r := MergedLakes(m, lo, hi);
    assert AmountOf(r[lo], a) == AmountOf(m[lo], a) + AmountOf(m[hi], a);
    FoldedBelow(r, m, lo, hi, a, n);
  }

  /** A lake's frontier queue holds nodes of the grid, once each. */
  predicate QueueOk(es: seq<Entry>, n: int)
  {
    Distinct(es) && forall e :: e in es ==> 0 <= e.task < n
  }

  /** Merging two well-formed frontier queues gives a well-formed one. */
  lemma MergedQueueOk(es: seq<Entry>, os: seq<Entry>, n: int)
    requires QueueOk(es, n) && QueueOk(os, n)
    ensures QueueOk(Merged(es, os), n)
  {
    MergedEntries(es, os);
  }

  /** Adding a node of the grid keeps a frontier queue well formed. */
  lemma AddedQueueOk(es: seq<Entry>, t: int, p: real, n: int)
    requires QueueOk(es, n) && 0 <= t < n
    ensures QueueOk(Added(es, t, p), n)
  {
  }

  /** A second update of the same lake replaces the first. */
  lemma UpdateTwice(m: map<int, Lake>, k: int, a: Lake, b: Lake)
    ensures m[k := a][k := b] == m[k := b]
  {
  }

  /** Between two states of the lakes: every lake of `m` was already a lake
      of `m0`, and every lake but `cpit`'s is as it was. */
  predicate Untouched(m0: map<int, Lake>, m: map<int, Lake>, cpit: int)
  {
    cpit in m && forall p :: p in m ==> p in m0 && (p != cpit ==> m[p] == m0[p])
  }

  /** Replacing one lake touches only that lake. */
  lemma UntouchedUpdate(m: map<int, Lake>, k: int, l: Lake)
    requires k in m
    ensures Untouched(m, m[k := l], k)
  {
  }

  /** Two changes that each touch one lake touch only the last one, when
      the first lake is either the last or gone. */
  lemma UntouchedTrans(m0: map<int, Lake>, m1: map<int, Lake>, m2: map<int, Lake>, c1: int, c2: int)
    requires Untouched(m0, m1, c1) && Untouched(m1, m2, c2) && (c2 == c1 || c1 !in m2)
    ensures Untouched(m0, m2, c2)
  {
  }

  /** The lake after `_raise_water_level` has applied `f` to it. */
  function AfterFill(l: Lake, f: Fill): Lake
  {
    l.(area := f.area, vol := f.vol, ks := f.ks, spill := if f.clearsSpill then -1 else l.spill)
  }

  /** The lake after the fill step of lines 368-390 floods `cnode` on the
      way to `nnode`, whose elevation is `zNext`: the level rises by the
      depth gained, and when the water runs out the lake is full and both
      nodes go back on its frontier, `cnode` last and at the level reached. */
  function RaisedLake(l: Lake, f: Fill, cnode: int, nnode: int, zNext: real): (r: Lake)
    requires f.clearsSpill <==> !f.filled
    ensures r.area == f.area && r.vol == f.vol && r.ks == f.ks && r.level == l.level + f.dz
    ensures f.filled ==> r.frontier == l.frontier && r.full == l.full && r.spill == l.spill
    ensures !f.filled ==> && r.full && r.spill == -1
                          && r.frontier != [] && Last(r.frontier) == Entry(cnode, r.level)
                          && Tasks(r.frontier) == Tasks(l.frontier) + {nnode, cnode}
                          && (nnode != cnode ==> Entry(nnode, zNext) in r.frontier)
  {
    var a := AfterFill(l, f).(level := l.level + f.dz);
    if f.filled then a
    else a.(full := true, frontier := Added(Added(a.frontier, nnode, zNext), cnode, a.level))
  }

  /** Everything a raise changes: the lake map, the lakes and the entries
      of the master queue of lakes. */
  datatype State = State(lm: seq<int>, lakes: map<int, Lake>, mq: seq<Entry>)

  /** Where one pass of the raise leaves off: the stop if the raise ends
      there, the pit that names the lake, the node flooded last and the
      new state. */
  datatype Outcome = Outcome(end: Option<Stop>, pit: int, node: int, st: State)

  /** How a whole raise ends, the pit that names the lake at the end, and
      the final state. */
  datatype Ending = Ending(stop: Stop, pit: int, st: State)

  /** The neighbour scan keeps a frontier queue well formed. */
  lemma {:induction false} FoldQueueOk(ctx: Ctx, s: Scan, nbs: seq<int>, n: int)
    requires Fits(ctx, s.lm) && NodesIn(nbs, |s.lm|) && |s.lm| == n && QueueOk(s.q, n)
    ensures QueueOk(Fold(ctx, s, nbs).q, n)
    decreases |nbs|
  {
    if nbs != [] {
      var init, nb := nbs[..|nbs| - 1], nbs[|nbs| - 1];
      assert NodesIn(init, |s.lm|);
      FoldQueueOk(ctx, s, init, n);
      var p := Fold(ctx, s, init);
      if Open(ctx, p.lm, nb) && ctx.surf[nb] >= ctx.surf[ctx.cnode] {
        AddedQueueOk(p.q, nb, ctx.surf[nb], n);
      }
    }
  }

  /** The state `_raise_lake_to_limit` works on. The grid, the balance
      terms, the lake map array and the master queue object are fixed; the
      lakes are reassigned. */
  class LakeFiller {
    const surf: seq<real>
    const cellArea: seq<real>
    const neighbors: seq<seq<int>>
    const closed: seq<bool>
    const draining: seq<bool>
    const terms: Terms
    const lakeMap: array<int>
    const masterQ: StablePriorityQueue
    var lakes: map<int, Lake>

    constructor (surf: seq<real>, cellArea: seq<real>, neighbors: seq<seq<int>>,
                 closed: seq<bool>, draining: seq<bool>, terms: Terms,
                 lakeMap: array<int>, masterQ: StablePriorityQueue, lakes: map<int, Lake>)
      ensures this.surf == surf && this.cellArea == cellArea && this.neighbors == neighbors
      ensures this.closed == closed && this.draining == draining && this.terms == terms
      ensures this.lakeMap == lakeMap && this.masterQ == masterQ && this.lakes == lakes
    {
      this.surf, this.cellArea, this.neighbors := surf, cellArea, neighbors;
      this.closed, this.draining, this.terms := closed, draining, terms;
      this.lakeMap, this.masterQ, this.lakes := lakeMap, masterQ, lakes;
    }

    /** The grid arrays all have one entry per node, and neighbour lists
        hold only other nodes of the grid. */
    predicate GridOk()
    {
      var n := |surf|;
      && |cellArea| == n && |neighbors| == n && |closed| == n && |draining| == n
      && lakeMap.Length == n && TermsFit(terms, n)
      && forall i :: 0 <= i < n ==>
           NodesIn(neighbors[i], n) && forall k :: 0 <= k < |neighbors[i]| ==> neighbors[i][k] != i
    }

    /** Every lake is named by a node of the grid and its frontier queue is
        well formed. */
    predicate Valid()
      reads this
    {
      GridOk() && forall p :: p in lakes ==> 0 <= p < |surf| && QueueOk(lakes[p].frontier, |surf|)
    }

    /** The step of `_raise_water_level` is defined for lake `l`: see `FillDefined`. */
    predicate Fillable(l: Lake, cnode: int, zIncrement: real, floodFromZero: bool)
      requires GridOk() && 0 <= cnode < |surf|
    {
      var bal := BalanceAt(terms, cellArea, cnode);
      FillDefined(l.area, l.vol, l.ks, cellArea[cnode], bal.0, bal.1, zIncrement, floodFromZero)
    }

    /** What one fill step of lake `l` at node `cnode` decides. */
    function FillOf(l: Lake, cnode: int, zIncrement: real, floodFromZero: bool): Fill
      requires GridOk() && 0 <= cnode < |surf|
      requires Fillable(l, cnode, zIncrement, floodFromZero)
    {
      var bal := BalanceAt(terms, cellArea, cnode);
      FillDecision(l.area, l.vol, l.ks, cellArea[cnode], bal.0, bal.1, zIncrement, floodFromZero)
    }

    predicate CanRaise(cpit: int, cnode: int, zIncrement: real, floodFromZero: bool)
      reads this
      requires GridOk() && cpit in lakes && 0 <= cnode < |surf|
    {
      Fillable(lakes[cpit], cnode, zIncrement, floodFromZero)
    }

    function FillAt(cpit: int, cnode: int, zIncrement: real, floodFromZero: bool): Fill
      reads this
      requires GridOk() && cpit in lakes && 0 <= cnode < |surf|
      requires CanRaise(cpit, cnode, zIncrement, floodFromZero)
    {
      FillOf(lakes[cpit], cnode, zIncrement, floodFromZero)
    }

    /** A state of the lake map, the lakes and the master queue that fits
        the grid, as `Valid` asks of the object's own state. */
    predicate StateOk(s: State)
    {
      GridOk() && |s.lm| == |surf| && forall p :: p in s.lakes ==> 0 <= p < |surf| && QueueOk(s.lakes[p].frontier, |surf|)
    }

    /** The object's current state as a value. */
    function Now(): State
      reads this, lakeMap, masterQ
    {
      State(lakeMap[..], lakes, masterQ.entries)
    }

    /** What each way of ending a raise guarantees about the lake of `cpit`
        in state `s`, the lake's codes having been made from `codePit`. */
    predicate EndedIn(s: State, stop: Stop, cpit: int, codePit: int)
    {
      && StateOk(s) && cpit in s.lakes && 0 <= codePit < |surf|
      && var l := s.lakes[cpit];
      match stop
      case Exhausted(c, nn) =>
        // the lake is full: its last node waits, at the level reached, at
        // the back of the frontier, and the node it could not reach is queued
        && 0 <= c < |surf| && 0 <= nn < |surf|
        && l.full && l.spill == -1 && l.vol <= 0.0
        && l.frontier != [] && Last(l.frontier) == Entry(c, l.level)
        && nn in Tasks(l.frontier)
        && (nn != c ==> Entry(nn, surf[nn]) in l.frontier)
      case Drained(d) =>
        // the lake rose to a draining node, which is now its spill
        && 0 <= d < |surf| && draining[d]
        && l.spill == d && l.level == surf[d] && s.lm[d] == SpillCode(codePit, |surf|)
      case Sill(d) =>
        // the lake rose to a node with a neighbour below it that is open and
        // not marked as this lake's, which is now its spill
        && 0 <= d < |surf|
        && AnyDownhill(Ctx(cpit, codePit, d, l.level, surf, closed), s.lm, neighbors[d])
        && l.spill == d && l.level == surf[d] && s.lm[d] == SpillCode(codePit, |surf|)
        && Entry(cpit, l.level) in s.mq
      case _ => true
    }

    /** Lines 392-459 on values, once the lake of `cpit` stands at the level
        of `nnode`: a spill node of another lake merges the two lakes (and
        `nnode` joins the survivor), a draining node becomes the spill, and
        any other node has its neighbours scanned. */
    function Claim(s: State, cpit: int, nnode: int, codePit: int): (r: Outcome)
      requires StateOk(s) && cpit in s.lakes && 0 <= nnode < |surf| && 0 <= codePit < |surf|
      ensures StateOk(r.st) && r.node == nnode
      ensures Untouched(s.lakes, r.st.lakes, r.pit) && (r.pit == cpit || cpit !in r.st.lakes)
    {
      var n := |surf|;
      var l := s.lakes[cpit];
      if s.lm[nnode] >= 2 * n then
        var thatPit := s.lm[nnode] - 2 * n;
        if thatPit !in s.lakes then Outcome(Some(UnknownLake(thatPit)), cpit, nnode, s)
        else if l.level != s.lakes[thatPit].level then Outcome(Some(LevelMismatch(thatPit)), cpit, nnode, s)
        else if thatPit == cpit then Outcome(Some(SelfMerge), cpit, nnode, s)
        else
          var lo := LowPit(surf, cpit, thatPit);
          var hi := if lo == cpit then thatPit else cpit;
          MergedQueueOk(s.lakes[lo].frontier, s.lakes[hi].frontier, n);
          Outcome(None, lo, nnode, s.(lm := Relabelled(s.lm, hi, lo)[nnode := lo], lakes := MergedLakes(s.lakes, lo, hi)))
      else if draining[nnode] then
        Outcome(Some(Drained(nnode)), cpit, nnode,
                s.(lm := s.lm[nnode := SpillCode(codePit, n)], lakes := s.lakes[cpit := l.(spill := nnode)]))
      else
        var ctx := Ctx(cpit, codePit, nnode, l.level, surf, closed);
        var init := Scan(s.lm, l.frontier, s.mq, false);
        FoldQueueOk(ctx, init, neighbors[nnode], n);
        var r := Fold(ctx, init, neighbors[nnode]);
        Outcome(if r.stop then Some(Sill(nnode)) else None, cpit, nnode,
                State(r.lm, s.lakes[cpit := l.(frontier := r.q, spill := if r.stop then nnode else l.spill)], r.mq))
    }

    /** The state once the lake of `cpit` has taken the fill step `f`,
        flooding `cnode` on the way to `nnode`. */
    function RaisedState(s: State, cpit: int, cnode: int, nnode: int, f: Fill): (r: State)
      requires StateOk(s) && cpit in s.lakes && 0 <= cnode < |surf| && 0 <= nnode < |surf|
      requires f.clearsSpill <==> !f.filled
      ensures StateOk(r) && Untouched(s.lakes, r.lakes, cpit)
      ensures r.lm == s.lm[cnode := cpit] && r.mq == s.mq
      ensures r.lakes == s.lakes[cpit := RaisedLake(s.lakes[cpit], f, cnode, nnode, surf[nnode])]
    {
      var l := s.lakes[cpit];
      var raised := RaisedLake(l, f, cnode, nnode, surf[nnode]);
      AddedQueueOk(l.frontier, nnode, surf[nnode], |surf|);
      AddedQueueOk(Added(l.frontier, nnode, surf[nnode]), cnode, l.level + f.dz, |surf|);
      assert QueueOk(raised.frontier, |surf|);
      UntouchedUpdate(s.lakes, cpit, raised);
      State(s.lm[cnode := cpit], s.lakes[cpit := raised], s.mq)
    }

    /** The fill step of the lake of `cpit` in `s`, flooding `cnode` on the
        way to the level of `nnode`, is defined; `cnode` floods from zero
        when no lake has marked it yet. */
    predicate StepDefined(s: State, cpit: int, cnode: int, nnode: int)
      requires StateOk(s) && cpit in s.lakes && 0 <= cnode < |surf| && 0 <= nnode < |surf|
    {
      Fillable(s.lakes[cpit], cnode, surf[nnode] - s.lakes[cpit].level, IsFresh(s.lm[cnode], |surf|))
    }

    /** That fill step. */
    function StepAt(s: State, cpit: int, cnode: int, nnode: int): Fill
      requires StateOk(s) && cpit in s.lakes && 0 <= cnode < |surf| && 0 <= nnode < |surf|
      requires StepDefined(s, cpit, cnode, nnode)
    {
      FillOf(s.lakes[cpit], cnode, surf[nnode] - s.lakes[cpit].level, IsFresh(s.lm[cnode], |surf|))
    }

    /** Lines 368-459 on values, for a node `nnode` no lake owns: raise the
        lake from `cnode`, the node flooded last, towards `nnode`'s level;
        if the water runs out the raise ends, otherwise `nnode` is claimed. */
    function Advance(s: State, cpit: int, cnode: int, nnode: int, codePit: int): (r: Outcome)
      requires StateOk(s) && cpit in s.lakes && 0 <= cnode < |surf| && 0 <= nnode < |surf| && 0 <= codePit < |surf|
      ensures StateOk(r.st) && 0 <= r.node < |surf|
      ensures Untouched(s.lakes, r.st.lakes, r.pit) && (r.pit == cpit || cpit !in r.st.lakes)
    {
      if !StepDefined(s, cpit, cnode, nnode) then Outcome(Some(ZeroDivision), cpit, cnode, s)
      else
        var f := StepAt(s, cpit, cnode, nnode);
        var raised := RaisedState(s, cpit, cnode, nnode, f);
        if !f.filled then Outcome(Some(Exhausted(cnode, nnode)), cpit, cnode, raised)
        else
          var c := Claim(raised, cpit, nnode, codePit);
          UntouchedTrans(s.lakes, raised.lakes, c.st.lakes, cpit, c.pit);
          c
    }

    /** An advance whose fill step is undefined stops with nothing changed. */
    lemma AdvanceUndefined(s: State, cpit: int, cnode: int, nnode: int, codePit: int)
      requires StateOk(s) && cpit in s.lakes && 0 <= cnode < |surf| && 0 <= nnode < |surf| && 0 <= codePit < |surf|
      requires !StepDefined(s, cpit, cnode, nnode)
      ensures Advance(s, cpit, cnode, nnode, codePit) == Outcome(Some(ZeroDivision), cpit, cnode, s)
    {
    }

    /** An advance whose fill step `f` does not reach `nnode` stops once
        the lake has taken the step. */
    lemma AdvanceExhausted(s: State, cpit: int, cnode: int, nnode: int, codePit: int, f: Fill)
      requires StateOk(s) && cpit in s.lakes && 0 <= cnode < |surf| && 0 <= nnode < |surf| && 0 <= codePit < |surf|
      requires StepDefined(s, cpit, cnode, nnode) && f == StepAt(s, cpit, cnode, nnode)
      requires !f.filled
      ensures Advance(s, cpit, cnode, nnode, codePit) == Outcome(Some(Exhausted(cnode, nnode)), cpit, cnode, RaisedState(s, cpit, cnode, nnode, f))
    {
    }

    /** An advance whose fill step `f` reaches `nnode` goes on to claim it. */
    lemma AdvanceClaims(s: State, cpit: int, cnode: int, nnode: int, codePit: int, f: Fill)
      requires StateOk(s) && cpit in s.lakes && 0 <= cnode < |surf| && 0 <= nnode < |surf| && 0 <= codePit < |surf|
      requires StepDefined(s, cpit, cnode, nnode) && f == StepAt(s, cpit, cnode, nnode)
      requires f.filled
      ensures Advance(s, cpit, cnode, nnode, codePit) == Claim(RaisedState(s, cpit, cnode, nnode, f), cpit, nnode, codePit)
    {
    }

    /** One pass of the loop of lines 355-459 on values: pop the lowest node
        of the frontier, pass over it if a lake owns it, and otherwise
        advance the lake to it. */
    function Pass(s: State, cpit: int, cnode: int, codePit: int): (r: Outcome)
      requires StateOk(s) && cpit in s.lakes && 0 <= cnode < |surf| && 0 <= codePit < |surf|
      ensures StateOk(r.st) && 0 <= r.node < |surf|
      ensures Untouched(s.lakes, r.st.lakes, r.pit) && (r.pit == cpit || cpit !in r.st.lakes)
    {
      var q := s.lakes[cpit].frontier;
      if q == [] then Outcome(Some(EmptyQueue), cpit, cnode, s)
      else
        assert q[MinIndex(q)] in q;
        var nnode := q[MinIndex(q)].task;
        var popped := s.(lakes := s.lakes[cpit := s.lakes[cpit].(frontier := RemoveAt(q, MinIndex(q)))]);
        UntouchedUpdate(s.lakes, cpit, popped.lakes[cpit]);
        if 0 <= s.lm[nnode] < |surf| then Outcome(None, cpit, cnode, popped)
        else
          var r := Advance(popped, cpit, cnode, nnode, codePit);
          UntouchedTrans(s.lakes, popped.lakes, r.st.lakes, cpit, r.pit);
          r
    }

    /** At most `fuel` passes, until one of them ends the raise. */
    function Run(s: State, cpit: int, cnode: int, codePit: int, fuel: nat): (r: Outcome)
      requires StateOk(s) && cpit in s.lakes && 0 <= cnode < |surf| && 0 <= codePit < |surf|
      ensures StateOk(r.st) && r.end.Some?
      ensures Untouched(s.lakes, r.st.lakes, r.pit) && (r.pit == cpit || cpit !in r.st.lakes)
      decreases fuel
    {
      if fuel == 0 then Outcome(Some(OutOfFuel), cpit, cnode, s)
      else
        var p := Pass(s, cpit, cnode, codePit);
        if p.end.Some? then p
        else
          var r := Run(p.st, p.pit, p.node, codePit, fuel - 1);
          UntouchedTrans(s.lakes, p.st.lakes, r.st.lakes, p.pit, r.pit);
          r
    }

    /** `_raise_lake_to_limit` (lines 330-459) on values: nothing for a lake
        that already spills; otherwise the lake is no longer full, the node
        it stopped at last time is popped as the first node flooded, and the
        passes run with the codes made from `currentPit`. */
    function Raise(s: State, currentPit: int, fuel: nat): (r: Ending)
      requires StateOk(s) && currentPit in s.lakes
      ensures StateOk(r.st) && Untouched(s.lakes, r.st.lakes, r.pit)
    {
      var l := s.lakes[currentPit];
      if l.spill != -1 then Ending(AlreadySpilled, currentPit, s)
      else
        var q := l.frontier;
        if q == [] then Ending(EmptyQueue, currentPit, s.(lakes := s.lakes[currentPit := l.(full := false)]))
        else
          assert q[MinIndex(q)] in q;
          var started := s.(lakes := s.lakes[currentPit := l.(full := false, frontier := RemoveAt(q, MinIndex(q)))]);
          var r := Run(started, currentPit, q[MinIndex(q)].task, currentPit, fuel);
          UntouchedTrans(s.lakes, started.lakes, r.st.lakes, currentPit, r.pit);
          Ending(r.end.value, r.pit, r.st)
    }

    /** How a claim ends. A claim that stops does so as `EndedIn` says; it
        reports a sill exactly when `nnode` is neither another lake's spill
        nor a draining node and has a neighbour below it that is open and not
        marked as this lake's; and it never runs out of frontier. */
    lemma ClaimEnded(s: State, cpit: int, nnode: int, codePit: int)
      requires StateOk(s) && cpit in s.lakes && 0 <= nnode < |surf| && 0 <= codePit < |surf|
      requires s.lakes[cpit].level == surf[nnode]
      ensures var r := Claim(s, cpit, nnode, codePit);
        && r.end != Some(AlreadySpilled) && r.end != Some(OutOfFuel) && r.end != Some(EmptyQueue)
        && (r.end.Some? ==> EndedIn(r.st, r.end.value, r.pit, codePit))
        && (r.end.Some? && r.end.value.Sill? ==> r.end.value.node == nnode)
        && (r.end == Some(Sill(nnode)) <==>
              && s.lm[nnode] < 2 * |surf| && !draining[nnode]
              && AnyDownhill(Ctx(cpit, codePit, nnode, surf[nnode], surf, closed), s.lm, neighbors[nnode]))
    {
      var l := s.lakes[cpit];
      if s.lm[nnode] < 2 * |surf| && !draining[nnode] {
        var ctx := Ctx(cpit, codePit, nnode, l.level, surf, closed);
        var init := Scan(s.lm, l.frontier, s.mq, false);
        FoldSill(ctx, init, neighbors[nnode]);
        FoldKeepsDownhill(ctx, init, neighbors[nnode]);
      }
    }

    /** A claim that merges keeps the totals of area, remaining volume and
        K term over the lakes, and the surviving pit then owns exactly the
        nodes either lake owned, and `nnode`. */
    lemma ClaimMergeConserves(s: State, cpit: int, nnode: int, codePit: int, a: Amount)
      requires StateOk(s) && cpit in s.lakes && 0 <= nnode < |surf| && 0 <= codePit < |surf|
      requires s.lm[nnode] >= 2 * |surf|
      ensures var r := Claim(s, cpit, nnode, codePit);
        var thatPit := s.lm[nnode] - 2 * |surf|;
        r.end.None? ==>
          && TotalBelow(r.st.lakes, a, |surf|) == TotalBelow(s.lakes, a, |surf|)
          && r.st.lm[nnode] == r.pit
          && forall i :: 0 <= i < |surf| && i != nnode ==>
               (r.st.lm[i] == r.pit <==> s.lm[i] == cpit || s.lm[i] == thatPit)
    {
      var r := Claim(s, cpit, nnode, codePit);
      var thatPit := s.lm[nnode] - 2 * |surf|;
      if r.end.None? {
        var lo := LowPit(surf, cpit, thatPit);
        var hi := if lo == cpit then thatPit else cpit;
        MergeConserves(s.lakes, lo, hi, a, |surf|);
      }
    }

    /** How an advance ends: when it stops, as `EndedIn` says, and never
        because the frontier is empty, the lake already spilled or the fuel
        ran out. */
    lemma AdvanceEnded(s: State, cpit: int, cnode: int, nnode: int, codePit: int)
      requires StateOk(s) && cpit in s.lakes && 0 <= cnode < |surf| && 0 <= nnode < |surf| && 0 <= codePit < |surf|
      ensures var r := Advance(s, cpit, cnode, nnode, codePit);
        && r.end != Some(AlreadySpilled) && r.end != Some(OutOfFuel) && r.end != Some(EmptyQueue)
        && (r.end.Some? ==> EndedIn(r.st, r.end.value, r.pit, codePit))
        && (r.end.Some? && r.end.value.Sill? ==> r.end.value.node == r.node)
    {
      if StepDefined(s, cpit, cnode, nnode) {
        var f := StepAt(s, cpit, cnode, nnode);
        if f.filled {
          ClaimEnded(RaisedState(s, cpit, cnode, nnode, f), cpit, nnode, codePit);
        }
      }
    }

    /** How a pass ends: when it stops, as `EndedIn` says, and never because
        the lake already spilled or the fuel ran out. */
    lemma PassEnded(s: State, cpit: int, cnode: int, codePit: int)
      requires StateOk(s) && cpit in s.lakes && 0 <= cnode < |surf| && 0 <= codePit < |surf|
      ensures var r := Pass(s, cpit, cnode, codePit);
        && r.end != Some(AlreadySpilled) && r.end != Some(OutOfFuel)
        && (r.end.Some? ==> EndedIn(r.st, r.end.value, r.pit, codePit))
        && (r.end.Some? && r.end.value.Sill? ==> r.end.value.node == r.node)
    {
      var q := s.lakes[cpit].frontier;
      if q != [] {
        assert q[MinIndex(q)] in q;
        var nnode := q[MinIndex(q)].task;
        var popped := s.(lakes := s.lakes[cpit := s.lakes[cpit].(frontier := RemoveAt(q, MinIndex(q)))]);
        if !(0 <= s.lm[nnode] < |surf|) {
          AdvanceEnded(popped, cpit, cnode, nnode, codePit);
        }
      }
    }

    /** A run with fuel `rest + 1` is the pass `p` followed, unless `p`
        stops, by a run with fuel `rest` from where `p` left off. */
    lemma RunStep(s: State, cpit: int, cnode: int, codePit: int, rest: nat, p: Outcome)
      requires StateOk(s) && cpit in s.lakes && 0 <= cnode < |surf| && 0 <= codePit < |surf|
      requires p == Pass(s, cpit, cnode, codePit)
      ensures p.end.Some? ==> Run(s, cpit, cnode, codePit, rest + 1) == p
      ensures p.end.None? ==> p.pit in p.st.lakes && Run(s, cpit, cnode, codePit, rest + 1) == Run(p.st, p.pit, p.node, codePit, rest)
    {
    }

    /** However many passes run, the raise ends as `EndedIn` says. */
    lemma {:induction false} RunEnded(s: State, cpit: int, cnode: int, codePit: int, fuel: nat)
      requires StateOk(s) && cpit in s.lakes && 0 <= cnode < |surf| && 0 <= codePit < |surf|
      ensures var r := Run(s, cpit, cnode, codePit, fuel);
        r.end != Some(AlreadySpilled) && EndedIn(r.st, r.end.value, r.pit, codePit)
      decreases fuel
    {
      if fuel > 0 {
        var p, rest := Pass(s, cpit, cnode, codePit), fuel - 1;
        PassEnded(s, cpit, cnode, codePit);
        RunStep(s, cpit, cnode, codePit, rest, p);
        if p.end.None? {
          RunEnded(p.st, p.pit, p.node, codePit, rest);
        }
      }
    }

    /** A raise does nothing exactly when the lake already has a spill
        node, and otherwise ends as `EndedIn` says. */
    lemma RaiseEnded(s: State, currentPit: int, fuel: nat)
      requires StateOk(s) && currentPit in s.lakes
      ensures var r := Raise(s, currentPit, fuel);
        && (r.stop == AlreadySpilled <==> s.lakes[currentPit].spill != -1)
        && (r.stop == AlreadySpilled ==> r.pit == currentPit && r.st == s)
        && EndedIn(r.st, r.stop, r.pit, currentPit)
    {
      var l := s.lakes[currentPit];
      var q := l.frontier;
      if l.spill == -1 && q != [] {
        assert q[MinIndex(q)] in q;
        var started := s.(lakes := s.lakes[currentPit := l.(full := false, frontier := RemoveAt(q, MinIndex(q)))]);
        RunEnded(started, currentPit, q[MinIndex(q)].task, currentPit, fuel);
      }
    }

    /** `_raise_water_level` (lines 737-771): node `cnode` joins lake
        `cpit`, and the lake's area, remaining volume, K term and spill node
        change as `FillDecision` says; the depth gained is returned, not
        applied to the level. */
    method RaiseWaterLevel(cpit: int, cnode: int, zIncrement: real, floodFromZero: bool)
      returns (filled: bool, dz: real)
      requires Valid() && cpit in lakes && 0 <= cnode < |surf|
      requires CanRaise(cpit, cnode, zIncrement, floodFromZero)
      modifies lakeMap, this`lakes
      ensures Valid()
      ensures lakeMap[..] == old(lakeMap[..])[cnode := cpit]
      ensures var f := old(FillAt(cpit, cnode, zIncrement, floodFromZero));
        filled == f.filled && dz == f.dz && lakes == old(lakes)[cpit := AfterFill(old(lakes[cpit]), f)]
    {
      ghost var l0, f := lakes[cpit], FillAt(cpit, cnode, zIncrement, floodFromZero);
      lakeMap[cnode] := cpit;
      if floodFromZero {
        lakes := lakes[cpit := lakes[cpit].(area := lakes[cpit].area + cellArea[cnode])];
      }
      var toFill := zIncrement * lakes[cpit].area;
      var bal := BalanceAt(terms, cellArea, cnode);
      var cAddedAtStart, kToLift := bal.0, bal.1;
      if floodFromZero {
        lakes := lakes[cpit := lakes[cpit].(vol := lakes[cpit].vol + cAddedAtStart)];
        if lakes[cpit].vol < 0.0 {
          lakes := lakes[cpit := lakes[cpit].(spill := -1)];
          return false, 0.0;
        }
      }
      var gainInFullFill := (kToLift + lakes[cpit].ks) * zIncrement;
      toFill := toFill - gainInFullFill;
      assert lakes[cpit].area == f.area && lakes[cpit].ks == l0.ks;
      assert toFill == Need(f.area, kToLift, l0.ks, zIncrement);
      assert lakes[cpit].vol == ChargedBudget(l0.vol, cAddedAtStart, floodFromZero);
      if lakes[cpit].vol < toFill {
        var frac := lakes[cpit].vol / toFill;
        lakes := lakes[cpit := lakes[cpit].(spill := -1)];
        dz := frac * zIncrement;
        lakes := lakes[cpit := lakes[cpit].(vol := 0.0)];
        filled := false;
      } else {
        lakes := lakes[cpit := lakes[cpit].(ks := lakes[cpit].ks + kToLift)];
        lakes := lakes[cpit := lakes[cpit].(vol := lakes[cpit].vol - toFill)];
        filled, dz := true, zIncrement;
      }
    }

    /** `_merge_two_lakes` (lines 462-506): the lake of the lower pit takes
        over the other lake's frontier queue, nodes, area, remaining volume
        and K term, and the other lake goes. The levels must agree (the
        source asserts it). */
    method MergeTwoLakes(thisPit: int, thatPit: int) returns (lowPit: int)
      requires Valid() && thisPit in lakes && thatPit in lakes && thisPit != thatPit
      requires lakes[thisPit].level == lakes[thatPit].level
      modifies lakeMap, this`lakes
      ensures Valid()
      ensures lowPit == LowPit(surf, thisPit, thatPit)
      ensures var hiPit := if lowPit == thisPit then thatPit else thisPit;
        && lakes == MergedLakes(old(lakes), lowPit, hiPit)
        && lakes[lowPit] == Absorbed(old(lakes[lowPit]), old(lakes[hiPit]))
        && lakeMap[..] == Relabelled(old(lakeMap[..]), hiPit, lowPit)
    {
      var hiPit;
      if surf[thisPit] < surf[thatPit] {
        lowPit, hiPit := thisPit, thatPit;
      } else {
        lowPit, hiPit := thatPit, thisPit;
      }
      var low, hi := lakes[lowPit], lakes[hiPit];
      var frontier := Merged(low.frontier, hi.frontier);
      MergedQueueOk(low.frontier, hi.frontier, |surf|);
      lakes := lakes - {hiPit};
      forall i | 0 <= i < lakeMap.Length && lakeMap[i] == hiPit {
        lakeMap[i] := lowPit;
      }
      assert lakeMap[..] == Relabelled(old(lakeMap[..]), hiPit, lowPit);
      lakes := lakes[lowPit := Lake(low.level, low.area + hi.area, low.vol + hi.vol, low.ks + hi.ks,
                                    low.full, -1, frontier)];
    }

    /** `pop_task` on lake `pit`'s frontier queue: the node of lowest
        elevation, earliest among ties; `None` where the queue is empty and
        the source raises KeyError. */
    method PopFrontier(pit: int) returns (task: Option<int>)
      requires Valid() && pit in lakes
      modifies this`lakes
      ensures Valid()
      ensures task.Some? ==> 0 <= task.value < |surf|
      ensures var q := old(lakes[pit].frontier);
        && (q == [] ==> task.None? && lakes == old(lakes))
        && (q != [] ==> task == Some(q[MinIndex(q)].task)
                        && lakes == old(lakes)[pit := old(lakes[pit]).(frontier := RemoveAt(q, MinIndex(q)))])
    {
      var q := lakes[pit].frontier;
      if q == [] {
        task := None;
      } else {
        var i := MinIndex(q);
        assert q[i] in q;
        task := Some(q[i].task);
        lakes := lakes[pit := lakes[pit].(frontier := RemoveAt(q, i))];
      }
    }

    /** What the neighbour scan of lake `cpit` from `cnode` reads. */
    function ScanCtx(cpit: int, codePit: int, cnode: int): Ctx
      reads this
      requires cpit in lakes
    {
      Ctx(cpit, codePit, cnode, lakes[cpit].level, surf, closed)
    }

    /** One pass of the neighbour loop (lines 434-458) for neighbour `nb`. */
    method ScanStep(cpit: int, cnode: int, codePit: int, nb: int, stop: bool) returns (stop': bool)
      requires Valid() && cpit in lakes && 0 <= cnode < |surf| && 0 <= codePit < |surf| && 0 <= nb < |surf|
      modifies lakeMap, masterQ, this`lakes
      ensures Valid()
      ensures var ctx := old(ScanCtx(cpit, codePit, cnode));
        var s := Scan(old(lakeMap[..]), old(lakes[cpit].frontier), old(masterQ.entries), stop);
        var r := Step(ctx, s, nb);
        && lakeMap[..] == r.lm && masterQ.entries == r.mq && stop' == r.stop
        && lakes == old(lakes)[cpit := old(lakes[cpit]).(frontier := r.q,
                                                          spill := if Downhill(ctx, s.lm, nb) then cnode else old(lakes[cpit].spill))]
    {
      var n := |surf|;
      stop' := stop;
      var l := lakes[cpit];
      if !closed[nb] && lakeMap[nb] != cpit && lakeMap[nb] != NghbCode(codePit, n) {
        if surf[nb] < surf[cnode] {
          lakeMap[cnode] := SpillCode(codePit, n);
          l := l.(spill := cnode);
          masterQ.AddTask(cpit, l.level);
          stop' := true;
        } else {
          AddedQueueOk(l.frontier, nb, surf[nb], n);
          l := l.(frontier := Added(l.frontier, nb, surf[nb]));
          lakeMap[nb] := CandidateMark(lakeMap[nb], codePit, n);
        }
      }
      lakes := lakes[cpit := l];
    }

    /** The neighbour loop of lines 430-458, over the neighbours of the
        freshly flooded node `cnode`: an open neighbour below `cnode` makes it
        the lake's spill node and puts the lake in the master queue; an open
        neighbour at or above it joins the lake's frontier queue and is
        marked as a candidate. `codePit` is the pit the codes were made from. */
    method ScanNeighbours(cpit: int, cnode: int, codePit: int) returns (tobreak: bool)
      requires Valid() && cpit in lakes && 0 <= cnode < |surf| && 0 <= codePit < |surf|
      modifies lakeMap, masterQ, this`lakes
      ensures Valid()
      ensures var ctx := old(ScanCtx(cpit, codePit, cnode));
        var s := Fold(ctx, Scan(old(lakeMap[..]), old(lakes[cpit].frontier), old(masterQ.entries), false),
                      neighbors[cnode]);
        && lakeMap[..] == s.lm && masterQ.entries == s.mq && tobreak == s.stop
        && lakes == old(lakes)[cpit := old(lakes[cpit]).(frontier := s.q,
                                                          spill := if s.stop then cnode else old(lakes[cpit].spill))]
    {
      var nbs := neighbors[cnode];
      ghost var ctx := ScanCtx(cpit, codePit, cnode);
      ghost var s0 := Scan(lakeMap[..], lakes[cpit].frontier, masterQ.entries, false);
      ghost var l0 := lakes[cpit];
      tobreak := false;
      for i := 0 to |nbs|
        invariant Valid() && cpit in lakes && lakes[cpit].level == l0.level
        invariant Scan(lakeMap[..], lakes[cpit].frontier, masterQ.entries, tobreak) == Fold(ctx, s0, nbs[..i])
        invariant lakes == old(lakes)[cpit := l0.(frontier := lakes[cpit].frontier,
                                                   spill := if tobreak then cnode else l0.spill)]
      {
        FoldSnoc(ctx, s0, nbs, i);
        ghost var before := lakes[cpit];
        tobreak := ScanStep(cpit, cnode, codePit, nbs[i], tobreak);
        UpdateTwice(old(lakes), cpit, before, lakes[cpit]);
      }
      assert nbs[..|nbs|] == nbs;
    }

    /** What the scan tells about the spill: `tobreak` holds exactly when
        `cnode` has a neighbour below it that is open and not marked as this
        lake's, and then `cnode` carries the spill code and is the lake's
        spill node, and the lake is in the master queue at its level;
        otherwise the master queue and `cnode`'s entry are left alone. The
        rest of the new state is the scan's, as `ScanNeighbours` says. */
    method ScanForSill(cpit: int, cnode: int, codePit: int) returns (tobreak: bool)
      requires Valid() && cpit in lakes && 0 <= cnode < |surf| && 0 <= codePit < |surf|
      modifies lakeMap, masterQ, this`lakes
      ensures Valid() && lakes.Keys == old(lakes.Keys)
      ensures var ctx := old(ScanCtx(cpit, codePit, cnode));
        var s := Fold(ctx, Scan(old(lakeMap[..]), old(lakes[cpit].frontier), old(masterQ.entries), false),
                      neighbors[cnode]);
        && tobreak == AnyDownhill(ctx, old(lakeMap[..]), neighbors[cnode])
        && lakeMap[..] == s.lm && masterQ.entries == s.mq
        && lakes == old(lakes)[cpit := old(lakes[cpit]).(frontier := s.q,
                                                          spill := if tobreak then cnode else old(lakes[cpit].spill))]
      ensures forall p :: p in lakes && p != cpit ==> lakes[p] == old(lakes[p])
      ensures lakes[cpit].level == old(lakes[cpit].level) && lakes[cpit].full == old(lakes[cpit].full)
      ensures tobreak ==> && lakes[cpit].spill == cnode
                          && lakeMap[cnode] == SpillCode(codePit, |surf|)
                          && masterQ.entries == Added(old(masterQ.entries), cpit, lakes[cpit].level)
      ensures !tobreak ==> && lakes[cpit].spill == old(lakes[cpit].spill)
                           && lakeMap[cnode] == old(lakeMap[cnode])
                           && masterQ.entries == old(masterQ.entries)
    {
      ghost var ctx := ScanCtx(cpit, codePit, cnode);
      ghost var s0 := Scan(lakeMap[..], lakes[cpit].frontier, masterQ.entries, false);
      tobreak := ScanNeighbours(cpit, cnode, codePit);
      FoldSill(ctx, s0, neighbors[cnode]);
    }

    /** The predicate `EndedIn` on the object's current state. */
    predicate Ended(stop: Stop, cpit: int, codePit: int)
      reads this, lakeMap, masterQ
    {
      EndedIn(Now(), stop, cpit, codePit)
    }

    /** Lines 368-390: raise the lake of `cpit`, flooding `cnode` (from
        zero when no lake has marked it: `fromZero` is `freshnode`), towards
        the level of `nnode`. The new state is `RaisedState` with the fill
        step `StepAt`: when the water runs out the lake is full and both
        nodes go back on its frontier (`cnode` at the level reached), and
        otherwise the lake stands at `nnode`'s level with its frontier and
        flags unchanged. */
    method RaiseTo(cpit: int, cnode: int, nnode: int, fromZero: bool) returns (filled: bool)
      requires Valid() && cpit in lakes && 0 <= cnode < |surf| && 0 <= nnode < |surf|
      requires fromZero == IsFresh(lakeMap[cnode], |surf|)
      requires StepDefined(Now(), cpit, cnode, nnode)
      modifies lakeMap, this`lakes
      ensures Valid()
      ensures var f := old(StepAt(Now(), cpit, cnode, nnode));
        && filled == f.filled
        && Now() == old(RaisedState(Now(), cpit, cnode, nnode, f))
      ensures filled ==> lakes[cpit].level == surf[nnode]
      ensures !filled ==> Ended(Exhausted(cnode, nnode), cpit, cpit)
    {
      var n := |surf|;
      ghost var s0 := Now();
      ghost var l0, f := lakes[cpit], StepAt(s0, cpit, cnode, nnode);
      ghost var m0 := lakes;
      assert CanRaise(cpit, cnode, surf[nnode] - lakes[cpit].level, fromZero);
      assert f == FillAt(cpit, cnode, surf[nnode] - lakes[cpit].level, fromZero);
      var filled', dz := RaiseWaterLevel(cpit, cnode, surf[nnode] - lakes[cpit].level, fromZero);
      assert filled' == f.filled && dz == f.dz && lakes == m0[cpit := AfterFill(l0, f)];
      filled := filled';
      var l := lakes[cpit].(level := lakes[cpit].level + dz);
      if !filled {
        AddedQueueOk(l.frontier, nnode, surf[nnode], n);
        var q := Added(l.frontier, nnode, surf[nnode]);
        AddedQueueOk(q, cnode, l.level, n);
        l := l.(full := true, frontier := Added(q, cnode, l.level));
      }
      assert l == RaisedLake(l0, f, cnode, nnode, surf[nnode]);
      UpdateTwice(m0, cpit, AfterFill(l0, f), l);
      lakes := lakes[cpit := l];
      UntouchedUpdate(m0, cpit, l);
    }

    /** Lines 392-459, once the lake of `cpit` stands at the level of
        `nnode`: as `Claim` says, a spill node of another lake at the same
        level merges the two lakes, a draining node becomes the spill, and
        any other node is flooded and its neighbours scanned. The result
        names the lake's pit, and the stop if the raise ends here. */
    method ClaimNode(cpit: int, nnode: int, codePit: int) returns (end: Option<Stop>, cpit': int)
      requires Valid() && cpit in lakes && 0 <= nnode < |surf| && 0 <= codePit < |surf|
      requires lakes[cpit].level == surf[nnode]
      modifies lakeMap, masterQ, this`lakes
      ensures Valid()
      ensures Outcome(end, cpit', nnode, Now()) == old(Claim(Now(), cpit, nnode, codePit))
      ensures Untouched(old(lakes), lakes, cpit') && (cpit' == cpit || cpit !in lakes)
      ensures end != Some(AlreadySpilled) && end != Some(OutOfFuel) && end != Some(EmptyQueue)
      ensures end.Some? ==> Ended(end.value, cpit', codePit)
      ensures end.Some? && end.value.Sill? ==> end.value.node == nnode
    {
      ghost var s0 := Now();
      ClaimEnded(s0, cpit, nnode, codePit);
      var n := |surf|;
      cpit' := cpit;
      if lakeMap[nnode] >= 2 * n {
        var thatPit := lakeMap[nnode] - 2 * n;
        if thatPit !in lakes {
          return Some(UnknownLake(thatPit)), cpit';
        }
        if lakes[cpit].level != lakes[thatPit].level {
          return Some(LevelMismatch(thatPit)), cpit';
        }
        if thatPit == cpit {
          return Some(SelfMerge), cpit';
        }
        cpit' := MergeTwoLakes(cpit, thatPit);
        lakeMap[nnode] := cpit';
        return None, cpit';
      }
      if draining[nnode] {
        lakeMap[nnode] := SpillCode(codePit, n);
        lakes := lakes[cpit := lakes[cpit].(spill := nnode)];
        return Some(Drained(nnode)), cpit';
      }
      var tobreak := ScanForSill(cpit, nnode, codePit);
      if tobreak {
        return Some(Sill(nnode)), cpit';
      }
      return None, cpit';
    }

    /** Lines 368-459 for a node `nnode` no lake owns, as `Advance` says:
        raise the lake from `cnode` towards `nnode` and, unless the water
        runs out, claim `nnode`. */
    method AdvanceTo(cpit: int, cnode: int, nnode: int, codePit: int) returns (end: Option<Stop>, cpit': int, cnode': int)
      requires Valid() && cpit in lakes && 0 <= cnode < |surf| && 0 <= nnode < |surf| && 0 <= codePit < |surf|
      modifies lakeMap, masterQ, this`lakes
      ensures Valid()
      ensures Outcome(end, cpit', cnode', Now()) == old(Advance(Now(), cpit, cnode, nnode, codePit))
    {
      ghost var s0 := Now();
      cpit', cnode' := cpit, cnode;
      var freshNode := IsFresh(lakeMap[cnode], |surf|);
      if !CanRaise(cpit, cnode, surf[nnode] - lakes[cpit].level, freshNode) {
        assert !StepDefined(s0, cpit, cnode, nnode);
        AdvanceUndefined(s0, cpit, cnode, nnode, codePit);
        return Some(ZeroDivision), cpit', cnode';
      }
      assert StepDefined(s0, cpit, cnode, nnode);
      ghost var f := StepAt(s0, cpit, cnode, nnode);
      var filled := RaiseTo(cpit, cnode, nnode, freshNode);
      ghost var raised := RaisedState(s0, cpit, cnode, nnode, f);
      assert Now() == raised;
      if !filled {
        AdvanceExhausted(s0, cpit, cnode, nnode, codePit, f);
        return Some(Exhausted(cnode, nnode)), cpit', cnode';
      }
      AdvanceClaims(s0, cpit, cnode, nnode, codePit, f);
      end, cpit' := ClaimNode(cpit, nnode, codePit);
      cnode' := nnode;
    }

    /** One pass of the loop of lines 355-459, as `Pass` says: take the
        lowest node of the frontier, raise the lake to it, and either stop,
        merge with the lake whose spill it is, or flood it and scan its
        neighbours. `cnode` is the node flooded last; the result names the
        lake's pit and the node flooded last after the pass, and the stop if
        the raise ends here. */
    method RaiseOnce(cpit: int, cnode: int, codePit: int) returns (end: Option<Stop>, cpit': int, cnode': int)
      requires Valid() && cpit in lakes && 0 <= cnode < |surf| && 0 <= codePit < |surf|
      modifies lakeMap, masterQ, this`lakes
      ensures Valid() && 0 <= cnode' < |surf|
      ensures Outcome(end, cpit', cnode', Now()) == old(Pass(Now(), cpit, cnode, codePit))
      ensures Untouched(old(lakes), lakes, cpit') && (cpit' == cpit || cpit !in lakes)
      ensures end != Some(AlreadySpilled) && end != Some(OutOfFuel)
      ensures end.Some? ==> Ended(end.value, cpit', codePit)
      ensures end.Some? && end.value.Sill? ==> end.value.node == cnode'
      ensures var q := old(lakes[cpit].frontier);
        q == [] ==> end == Some(EmptyQueue) && lakes == old(lakes) && lakeMap[..] == old(lakeMap[..])
      ensures var q := old(lakes[cpit].frontier);
        // a node some lake already owns is popped and passed over
        q != [] ==> var t := q[MinIndex(q)].task;
          0 <= t < |surf| && 0 <= old(lakeMap[t]) < |surf| ==>
            && end.None? && cpit' == cpit && cnode' == cnode && lakeMap[..] == old(lakeMap[..])
            && lakes == old(lakes)[cpit := old(lakes[cpit]).(frontier := RemoveAt(q, MinIndex(q)))]
    {
      ghost var s0 := Now();
      PassEnded(s0, cpit, cnode, codePit);
      cpit', cnode' := cpit, cnode;
      var next := PopFrontier(cpit);
      if next.None? {
        return Some(EmptyQueue), cpit', cnode';
      }
      var nnode := next.value;
      if 0 <= lakeMap[nnode] < |surf| {
        // already flooded, as can happen after a merge
        return None, cpit', cnode';
      }
      end, cpit', cnode' := AdvanceTo(cpit, cnode, nnode, codePit);
    }

    /** `_raise_lake_to_limit` (lines 330-459) for the lake of `currentPit`,
        with at most `fuel` passes of its loop, as `Raise` says. It returns
        how the raise ended and the pit that names the lake at the end (a
        merge may have renamed it). The marks it writes are made from
        `currentPit`. */
    method RaiseLakeToLimit(currentPit: int, fuel: nat) returns (stop: Stop, cpit: int)
      requires Valid() && currentPit in lakes
      modifies lakeMap, masterQ, this`lakes
      ensures Valid() && Untouched(old(lakes), lakes, cpit)
      ensures Ending(stop, cpit, Now()) == old(Raise(Now(), currentPit, fuel))
      ensures stop == AlreadySpilled <==> old(lakes[currentPit].spill) != -1
      ensures stop == AlreadySpilled ==>
        cpit == currentPit && lakes == old(lakes) && lakeMap[..] == old(lakeMap[..])
        && masterQ.entries == old(masterQ.entries)
      ensures Ended(stop, cpit, currentPit)
    {
      ghost var s0 := Now();
      ghost var goal := Raise(s0, currentPit, fuel);
      var n := |surf|;
      cpit := currentPit;
      if lakes[cpit].spill != -1 {
        return AlreadySpilled, cpit;
      }
      // pit_nghb_code and spill_code are made once, from the pit the raise starts at
      var codePit := cpit;
      ghost var l0 := lakes[cpit];
      lakes := lakes[cpit := lakes[cpit].(full := false)];
      var first := PopFrontier(cpit);
      UpdateTwice(s0.lakes, cpit, l0.(full := false), lakes[cpit]);
      if first.None? {
        return EmptyQueue, cpit;
      }
      var cnode := first.value;
      var fuelLeft := fuel;
      while fuelLeft > 0
        invariant Valid() && cpit in lakes && 0 <= cnode < n && codePit == currentPit
        invariant var r := Run(Now(), cpit, cnode, codePit, fuelLeft); goal == Ending(r.end.value, r.pit, r.st)
        decreases fuelLeft
      {
        ghost var s, pit0, node0 := Now(), cpit, cnode;
        fuelLeft := fuelLeft - 1;
        var end;
        end, cpit, cnode := RaiseOnce(cpit, cnode, codePit);
        RunStep(s, pit0, node0, codePit, fuelLeft, Outcome(end, cpit, cnode, Now()));
        if end.Some? {
          return end.value, cpit;
        }
      }
      return OutOfFuel, cpit;
    }
  }
}
