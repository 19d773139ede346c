# Volume-limited lake filling (landlab `lake_fill_with_flux`)

This project models the core of landlab's lake filler with flux. That core
raises one lake at a time over a grid, node by node in order of the water
surface, and spends only the water the lake actually has as it goes. Each lake
is named by its pit, the lowest node it started from. A raise of a lake:

- pops the lowest node of the lake's frontier queue;
- charges the cost of lifting the lake to that node, using a linear water
  balance (a constant term `c` and a depth term `K`, each one scalar or one
  value per node);
- then stops when the water runs out, stops on reaching a draining boundary
  node, stops on finding a sill (an open neighbour below the node just
  flooded that is neither this lake's nor marked as its candidate), or
  merges with a neighbouring lake whose spill node it has reached.

Node ownership lives in one integer array, the lake map, whose codes are
overloaded:

- negative: unclaimed;
- `[0, n)`: flooded by that pit's lake;
- `[n, 2n)`: a candidate neighbour;
- `2n` and above: a spill node claimed by a lake.

Modules:

- `StablePQ` (`priority_queue.dfy`): the stable priority queue the filler
  imports, as a reference definition over its live entries. The master queue
  of lakes is a `StablePriorityQueue` object. Each lake's frontier queue is an
  entry sequence that the same functions act on.
- `LakeCodes` (`lake_codes.dfy`): the lake-map codes, decoded to a `Claim`.
- `VolumeBalance` (`volume_balance.dfy`): `_get_float_water_vol_balance_terms`.
- `FillStep` (`fill_step.dfy`): the decision one call of
  `_raise_water_level` makes, on the lake's values alone.
- `NeighbourScan` (`neighbour_scan.dfy`): the neighbour loop of
  `_raise_lake_to_limit`, as a fold over the neighbour list.
- `LakeInit` (`lake_init.dfy`): the dictionary-building loop of
  `fill_depression_from_pit_discharges`.
- `LakeFill` (`lake_fill.dfy`): the class `LakeFiller`. It holds the grid,
  the lake map `array`, the master queue and a map from pit to `Lake` record.
  Its methods are `_raise_water_level`, `_merge_two_lakes` and
  `_raise_lake_to_limit`. The last of these is split into one method per part
  of its loop, and each method is proved against the pure definitions above.

How the code behaves, as modelled:

- The candidate and spill codes are made once, from the pit the raise started
  at. After a merge renames the lake, the raise still writes codes of the
  original pit (`codePit`). The model keeps this.
- The lake map is not relabelled for candidate or spill codes on a merge, only
  for owned nodes.
- A lake whose first-contact charge alone overdraws the budget keeps the
  negative budget: lines 746-750 return at once, leaving `vol_rem_at_pit`
  below zero (the documented call that leaves it at -1). The model keeps the
  negative budget too.
- Every exception the source can raise inside a raise is a `Stop` value:
  - `EmptyQueue`: `pop_task` on an empty frontier;
  - `UnknownLake`: a spill code naming a pit that is no longer a lake (the
    source fails on the missing dictionary key);
  - `LevelMismatch`: the level assertion of `_merge_two_lakes`;
  - `SelfMerge`: a spill code of the lake itself.
- One more `Stop` value is not an exception of the source. `ZeroDivision`
  is where line 759 divides by a zero need: a negative budget carried onto
  an owned node, with nothing needed to lift the lake. On numpy floats that
  gives an infinite or undefined depth and no exception; the model stops
  there instead.

## Model

| member | source | states |
|---|---|---|
| StablePQ.Added | landlab/components/lake_fill/lake_fill_with_flux.py:388-389 | `add_task`: the new entry comes last, the task's old entry is dropped, every other entry stays, the task set gains the task, and tasks stay distinct |
| StablePQ.AddedTwice | landlab/components/lake_fill/lake_fill_with_flux.py:449-450 | adding the same task at the same priority twice leaves the queue as adding it once (a node with two lower neighbours queues its lake once) |
| StablePQ.MinIndex | landlab/components/lake_fill/lake_fill_with_flux.py:353-357 | `pop_task` takes an entry whose priority is no greater than any other, and strictly smaller than every earlier entry's (ties go to the earliest) |
| StablePQ.AddedLowestPopsFirst | landlab/components/lake_fill/lake_fill_with_flux.py:383-389 | a task added below every live priority is the next one popped |
| StablePQ.RemoveAt | landlab/components/lake_fill/lake_fill_with_flux.py:357 | popping removes exactly the popped entry: one entry fewer, every other entry kept, and with distinct tasks the popped task is gone |
| StablePQ.Merged | landlab/components/lake_fill/lake_fill_with_flux.py:494 | `merge_queues`: the task set is the union of both queues' tasks, and distinct tasks stay distinct |
| StablePQ.MergedEntries | landlab/components/lake_fill/lake_fill_with_flux.py:494 | after a merge every entry of the other queue is present, every entry of this queue whose task the other lacks is kept, and there is nothing else |
| StablePQ.StablePriorityQueue.AddTask | landlab/components/lake_fill/lake_fill_with_flux.py:449-450 | the master queue's entries become those of `Added` |
| LakeCodes.Decode | landlab/components/lake_fill/lake_fill_with_flux.py:339-342 | the owned, spill and unclaimed tests of the filler each hold exactly for one kind of claim, and codes in [-1, 3n) name a pit of the grid |
| LakeCodes.Encode | landlab/components/lake_fill/lake_fill_with_flux.py:339-342 | every claim on a node of the grid has a code in [-1, 3n) that decodes back to it |
| LakeCodes.EncodeDecode | landlab/components/lake_fill/lake_fill_with_flux.py:339-342 | every code in [-1, 3n) is the code of the claim it decodes to |
| LakeCodes.IsFresh | landlab/components/lake_fill/lake_fill_with_flux.py:368-369 | a node is fresh exactly when no lake owns it |
| LakeCodes.CandidateMark | landlab/components/lake_fill/lake_fill_with_flux.py:458 | the mark never lowers a code, keeps a spill claim, turns an unclaimed or owned node into a candidate of the pit, and leaves a higher code as it was |
| VolumeBalance.CoefAt | landlab/components/lake_fill/lake_fill_with_flux.py:543-550 | a scalar coefficient is used as is, an array one is read at the node |
| VolumeBalance.BalanceAt | landlab/components/lake_fill/lake_fill_with_flux.py:542-551 | the two volumes are the coefficients at the node times the node's cell area |
| VolumeBalance.ScalarIsUniformArray | landlab/components/lake_fill/lake_fill_with_flux.py:543-550 | a scalar gives the same terms as an array holding that scalar everywhere |
| VolumeBalance.LossesStayLosses | landlab/components/lake_fill/lake_fill_with_flux.py:47-50 | with both coefficients losses and a non-negative area, both volumes are losses |
| VolumeBalance.DocumentedExamples | landlab/components/lake_fill/lake_fill_with_flux.py:519-540 | the two documented calls give (-3, 0) and (-21, 14) |
| FillStep.FillDecision | landlab/components/lake_fill/lake_fill_with_flux.py:737-771 | the area grows by the cell area only on first contact. A first-contact charge that overdraws the budget fails with depth 0 and the negative budget. Otherwise the node fills exactly when the charged budget covers the need; a fill adds the full increment and the K term, and a failure spends the budget to 0 and leaves the K term. The spill is cleared exactly on failure |
| FillStep.FillConservesVolume | landlab/components/lake_fill/lake_fill_with_flux.py:752-771 | past the first-contact charge, the budget spent is the lake's net area times the depth actually added |
| FillStep.FillDepthBounds | landlab/components/lake_fill/lake_fill_with_flux.py:752-764 | for a non-negative increment, on a budget that is not negative on a node the lake has already flooded, the depth added lies in [0, z], and below z when the node does not fill |
| FillStep.NegativeBudgetLowersLevel | landlab/components/lake_fill/lake_fill_with_flux.py:746-764 | the excluded case happens: a budget of -1 carried onto a node already flooded, for a need of 1, gives a depth of -1 |
| FillStep.FillWithoutLosses | landlab/components/lake_fill/lake_fill_with_flux.py:752-771 | without balance terms the node fills exactly when budget >= area * z; otherwise the lake rises by budget / area and the budget is spent |
| FillStep.DocumentedFills | landlab/components/lake_fill/lake_fill_with_flux.py:609-735 | the five documented calls give the documented flags, depths, areas, budgets and K terms |
| NeighbourScan.Step | landlab/components/lake_fill/lake_fill_with_flux.py:434-458 | one pass of the neighbour loop keeps one lake-map entry per node (its meaning is stated by the three lemmas below) |
| NeighbourScan.Fold | landlab/components/lake_fill/lake_fill_with_flux.py:433-458 | the neighbour loop in order keeps one lake-map entry per node |
| NeighbourScan.FoldKeepsLowerCodes | landlab/components/lake_fill/lake_fill_with_flux.py:443-458 | the scan never writes the entry of a node lower than the flooded node |
| NeighbourScan.FoldSill | landlab/components/lake_fill/lake_fill_with_flux.py:433-453 | the scan reports a sill exactly when some neighbour below the flooded node is open: not closed, and neither flooded by this lake nor marked as its candidate. Then the node gets the spill code and the lake enters the master queue once at its level; otherwise both are left untouched |
| NeighbourScan.FoldKeepsDownhill | landlab/components/lake_fill/lake_fill_with_flux.py:443-458 | whether a sill lies below the flooded node reads the same in the lake map the scan leaves as in the one it began with |
| NeighbourScan.DownhillIsLowerOpen | landlab/components/lake_fill/lake_fill_with_flux.py:434-443 | a sill means some neighbour is not closed and lies strictly below the flooded node |
| NeighbourScan.FoldCodes | landlab/components/lake_fill/lake_fill_with_flux.py:454-458 | every other node's entry ends as the candidate mark of its old entry when it is an uphill open neighbour, and unchanged otherwise |
| NeighbourScan.FoldQueue | landlab/components/lake_fill/lake_fill_with_flux.py:454-457 | every uphill open neighbour ends in the frontier at its own elevation; every frontier entry was there before or is such a neighbour's; and every old entry of a node that is not such a neighbour stays |
| LakeInit.ZipLength | landlab/components/lake_fill/lake_fill_with_flux.py:71-73 | `zip` runs to the shortest of its inputs |
| LakeInit.InitLakeDicts | landlab/components/lake_fill/lake_fill_with_flux.py:65-79 | the six dictionaries have exactly the zipped pits as keys; a pit holds the volume, area and level of its last position; and every pit is not full, with zero balance and K term |
| LakeFill.LowPit | landlab/components/lake_fill/lake_fill_with_flux.py:484-489 | the survivor is one of the two pits and sits no higher than either; on a tie it is `that_pit` |
| LakeFill.Relabelled | landlab/components/lake_fill/lake_fill_with_flux.py:498 | exactly the nodes owned by either lake end up owned by the survivor, none by the retired pit, and every other entry (candidate and spill codes included) is unchanged |
| LakeFill.Absorbed | landlab/components/lake_fill/lake_fill_with_flux.py:494-503 | the survivor's area, volume and K term are the sums of both lakes'; its level and full flag are its own; its spill is cleared; and its frontier holds both lakes' nodes |
| LakeFill.MergedLakes | landlab/components/lake_fill/lake_fill_with_flux.py:496-503 | the retired pit leaves every dictionary and every other lake is unchanged |
| LakeFill.FoldedBelow | landlab/components/lake_fill/lake_fill_with_flux.py:499-501 | summed over the pits below k, moving one lake's amount into another changes the total only by what crosses the bound |
| LakeFill.MergeConserves | landlab/components/lake_fill/lake_fill_with_flux.py:499-501 | a merge keeps the total area, total remaining volume and total K term over all lakes |
| LakeFill.RaisedLake | landlab/components/lake_fill/lake_fill_with_flux.py:378-390 | the level rises by the depth gained, and area, budget and K term are the fill step's. A fill leaves frontier, full flag and spill alone. A failure leaves the lake full with no spill, its frontier's nodes plus the two nodes, the flooded node last at the level reached and the next node at its elevation |
| LakeFill.FoldQueueOk | landlab/components/lake_fill/lake_fill_with_flux.py:454-457 | the neighbour scan keeps a frontier queue to distinct nodes of the grid |
| LakeFill.LakeFiller.RaisedState | landlab/components/lake_fill/lake_fill_with_flux.py:368-390 | the fill step changes only the raised lake, as `RaisedLake` says; the flooded node becomes its; the master queue is untouched; the state stays well formed |
| LakeFill.LakeFiller.Claim | landlab/components/lake_fill/lake_fill_with_flux.py:392-459 | claiming a node keeps the state well formed, changes no lake but the one the result names, and the lake it started from is that one or has been merged away |
| LakeFill.LakeFiller.ClaimEnded | landlab/components/lake_fill/lake_fill_with_flux.py:392-459 | a claim never ends on an empty frontier, an existing spill or fuel; a stop holds what `EndedIn` says of it; and it reports a sill at the node exactly when the node is neither a spill code nor draining and some open neighbour lies below it |
| LakeFill.LakeFiller.ClaimMergeConserves | landlab/components/lake_fill/lake_fill_with_flux.py:395-414 | a claim that merges keeps the total area, budget and K term over all lakes, and the survivor then owns exactly the nodes either lake owned, and the claimed node |
| LakeFill.LakeFiller.Advance | landlab/components/lake_fill/lake_fill_with_flux.py:368-459 | an advance keeps the state well formed, changes no lake but the one the result names, and the lake it started from is that one or has been merged away |
| LakeFill.LakeFiller.AdvanceUndefined | landlab/components/lake_fill/lake_fill_with_flux.py:368-373 | when the fill step would divide by zero, the advance stops with `ZeroDivision` and changes nothing |
| LakeFill.LakeFiller.AdvanceExhausted | landlab/components/lake_fill/lake_fill_with_flux.py:379-390 | when the water runs out the advance ends `Exhausted` in the state the fill step leaves |
| LakeFill.LakeFiller.AdvanceClaims | landlab/components/lake_fill/lake_fill_with_flux.py:392-459 | when the node fills, the advance goes on to claim the next node from the state the fill step leaves |
| LakeFill.LakeFiller.AdvanceEnded | landlab/components/lake_fill/lake_fill_with_flux.py:368-459 | an advance never ends on an empty frontier, an existing spill or fuel; a stop holds what `EndedIn` says of it, and a sill is the node flooded last |
| LakeFill.LakeFiller.Pass | landlab/components/lake_fill/lake_fill_with_flux.py:355-459 | a pass keeps the state well formed, changes no lake but the one the result names, and the lake it started from is that one or has been merged away |
| LakeFill.LakeFiller.PassEnded | landlab/components/lake_fill/lake_fill_with_flux.py:355-459 | a pass never ends on an existing spill or fuel; a stop holds what `EndedIn` says of it, and a sill is the node flooded last |
| LakeFill.LakeFiller.Run | landlab/components/lake_fill/lake_fill_with_flux.py:355-459 | a run of passes always ends with a stop, keeps the state well formed and changes no lake but the one the result names |
| LakeFill.LakeFiller.RunStep | landlab/components/lake_fill/lake_fill_with_flux.py:355-459 | one more pass of fuel is one more pass of the loop: a pass that stops is the run's result, and otherwise the run goes on from where the pass left off |
| LakeFill.LakeFiller.RunEnded | landlab/components/lake_fill/lake_fill_with_flux.py:355-459 | however many passes run, the raise never ends as already spilled, and it ends as `EndedIn` says |
| LakeFill.LakeFiller.Raise | landlab/components/lake_fill/lake_fill_with_flux.py:330-459 | a raise keeps the state well formed and changes no lake but the one the result names |
| LakeFill.LakeFiller.RaiseEnded | landlab/components/lake_fill/lake_fill_with_flux.py:330-459 | a raise ends as already spilled exactly when the lake has a spill node, and then changes nothing; every raise ends as `EndedIn` says |
| LakeFill.LakeFiller.RaiseWaterLevel | landlab/components/lake_fill/lake_fill_with_flux.py:737-771 | the node becomes the lake's and no other map entry changes; the lake's area, budget, K term and spill change as `FillDecision` says, every other lake is unchanged, and the returned flag and depth are the decision's |
| LakeFill.LakeFiller.MergeTwoLakes | landlab/components/lake_fill/lake_fill_with_flux.py:462-506 | for two lakes at equal level: returns `LowPit`, the lakes become `MergedLakes` with the survivor `Absorbed`, and the lake map becomes `Relabelled` |
| LakeFill.LakeFiller.PopFrontier | landlab/components/lake_fill/lake_fill_with_flux.py:353-357 | pops the `MinIndex` entry of the lake's frontier and removes it; an empty frontier gives none and changes nothing |
| LakeFill.LakeFiller.ScanStep | landlab/components/lake_fill/lake_fill_with_flux.py:434-458 | the lake map, the lake's frontier, the master queue and the flag become those of `Step`; the spill becomes the flooded node exactly on a downhill neighbour |
| LakeFill.LakeFiller.ScanNeighbours | landlab/components/lake_fill/lake_fill_with_flux.py:430-458 | the whole loop leaves the lake map, the frontier, the master queue and the flag as `Fold` over the neighbour list says; the spill becomes the flooded node exactly when a sill is found |
| LakeFill.LakeFiller.ScanForSill | landlab/components/lake_fill/lake_fill_with_flux.py:430-458 | the new lake map, frontier and master queue are those of `Fold`, and the scan stops exactly when some open neighbour lies below the node (`AnyDownhill`). Then the node is the lake's spill with the spill code, and the lake is added to the master queue at its level. Otherwise spill, code and master queue are untouched; the level, full flag and other lakes never change |
| LakeFill.LakeFiller.RaiseTo | landlab/components/lake_fill/lake_fill_with_flux.py:368-390 | the flag is the fill step's and the new state is `RaisedState` of that step. On a fill the lake stands at the next node's elevation; on a failure the raise has ended as `Exhausted`: the lake is full with no spill and no budget left, the next node is queued, and the flooded node is last in the frontier at the level reached |
| LakeFill.LakeFiller.ClaimNode | landlab/components/lake_fill/lake_fill_with_flux.py:392-459 | the result and the new state are `Claim`'s: another lake's spill code merges the two lakes (renaming the lake at most once), a draining node becomes the spill with the spill code, any other node is scanned, and a sill stops the raise there, as `EndedIn` says |
| LakeFill.LakeFiller.AdvanceTo | landlab/components/lake_fill/lake_fill_with_flux.py:368-459 | the result and the new state are `Advance`'s |
| LakeFill.LakeFiller.RaiseOnce | landlab/components/lake_fill/lake_fill_with_flux.py:355-459 | the result and the new state are `Pass`'s. An empty frontier stops with nothing changed; a popped node that some lake owns is discarded with nothing else changed; any stop holds what `EndedIn` says of it, and only the lake the result names changes |
| LakeFill.LakeFiller.RaiseLakeToLimit | landlab/components/lake_fill/lake_fill_with_flux.py:330-459 | the result and the new state are `Raise`'s. A lake with a spill node is left exactly as it was, with nothing else changed, and it ends as already spilled exactly then. Every other lake stays unchanged. On exhaustion the lake is full with its two nodes queued, on a draining node or a sill that node is the spill at the lake's level, and a sill puts the lake in the master queue |

## Left out

- The stable priority queue's own code is not part of this model. Its behaviour is assumed as stated in `StablePQ`:
  - entries in insertion order, one per task;
  - re-adding a task moves it to the back;
  - pop takes the lowest priority, and the earliest entry among ties;
  - popping an empty queue fails;
  - a merge adds the other queue's entries in order.
- The per-lake frontier queues are values held in each `Lake` record, not separate objects. Aliasing between queue objects is not modelled; the core never shares one.
- The six per-pit dictionaries the raise works on, together with the frontier queue dictionary, are held as one map from pit to record. They always share one key set in the core. `LakeInit` keeps the six dictionaries separately, as they are built.
- Floating point is not modelled: all quantities are exact reals.
- The `np.isclose` level check of `_merge_two_lakes` is exact equality.
- Landlab's neighbour padding (-1) and numpy's negative indexing are left out: `LakeFiller.GridOk` requires neighbour lists to hold only other nodes of the grid.
- The `print` tracing is left out; it has no effect.
- `_route_outlet_to_next` and `LakeFillerWithFlux.run_one_step` are empty stubs and are left out.
- The rest of `fill_depression_from_pit_discharges` is left out: the grid allocations, the sort of the pits, and `lake_water_volume_balance` after it is set up. `LakeInit.InitLakeDicts` takes the pits, volumes, areas and levels already in loop order. The source reads those by sort position, so no claim is made that levels equal pit elevations.
- LakeFill.LakeFiller.RaiseLakeToLimit: termination of the raise loop is not proved. A `fuel` bound on the number of passes stops the raise with `OutOfFuel`.
- LakeFill.LakeFiller.RaiseLakeToLimit: returns how and where the raise stopped. The source returns nothing and signals the error stops by exceptions.
- LakeFill.LakeFiller.ClaimNode: on a spill code of the lake itself, the source goes on to corrupt its dictionaries and fails later on a missing key. The model stops with `SelfMerge` before merging.
- LakeFill.LakeFiller.RaiseOnce: where the source would divide by a zero need (a negative budget carried onto an owned node), numpy gives an infinite or undefined depth, with no exception, and carries on. The model stops with `ZeroDivision`.
- LakeFill.LakeFiller.RaiseLakeToLimit: the raise is not claimed to conserve volume across a whole call. Conservation is proved per fill step (`FillConservesVolume`) and per merge (`MergeConserves`).
- LakeFill.LakeFiller.RaiseLakeToLimit: levels are not claimed never to fall. A budget left negative by lines 746-750 and carried onto the node already flooded gives a negative depth (lines 758-764), so the level drops; `NegativeBudgetLowersLevel` exhibits it. `FillDepthBounds` states the bounds for every other step.
