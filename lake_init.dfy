/** The per-pit dictionaries the filler starts from (lines 65-79): each pit,
    taken in order of its water-surface elevation, gets its incoming volume,
    its area and its level; its full flag is off and its balance and K
    accumulators are zero. */
module LakeInit {

  datatype LakeDicts = LakeDicts(
    volRem: map<int, real>,
    accumArea: map<int, real>,
    waterLevel: map<int, real>,
    isFull: map<int, bool>,
    volBalance: map<int, real>,
    accumKs: map<int, real>)

  /** `zip` stops at the shortest of its inputs. */
  function ZipLength(a: nat, b: nat, c: nat, d: nat): (m: nat)
    ensures m <= a && m <= b && m <= c && m <= d
    ensures m == a || m == b || m == c || m == d
  {
    var ab := if a < b then a else b;
    var cd := if c < d then c else d;
    if ab < cd then ab else cd
  }

  function PitsOf(pits: seq<int>, m: nat): set<int>
    requires m <= |pits|
  {
    set i | 0 <= i < m :: pits[i]
  }

  lemma PitsOfSnoc(pits: seq<int>, m: nat)
    requires m < |pits|
    ensures PitsOf(pits, m + 1) == PitsOf(pits, m) + {pits[m]}
  {
    forall p | p in PitsOf(pits, m + 1) ensures p in PitsOf(pits, m) + {pits[m]} {
      var i :| 0 <= i < m + 1 && pits[i] == p;
      if i < m {
        assert p in PitsOf(pits, m);
      }
    }
  }

  /** `i` is the last of the first `m` positions holding its pit: a repeated
      pit keeps the values of its last position. */
  predicate LastAt(pits: seq<int>, m: nat, i: nat)
    requires i < m <= |pits|
  {
    forall j :: i < j < m ==> pits[j] != pits[i]
  }

  /** The three value dictionaries hold, for every pit among the first `m`
      positions, the values of the pit's last position. */
  predicate ValuesAt(volRem: map<int, real>, accumArea: map<int, real>, waterLevel: map<int, real>,
                     pits: seq<int>, vols: seq<real>, areas: seq<real>, levels: seq<real>, m: nat)
    requires m <= |pits| && m <= |vols| && m <= |areas| && m <= |levels|
  {
    forall k :: 0 <= k < m && LastAt(pits, m, k) ==>
      && pits[k] in volRem && pits[k] in accumArea && pits[k] in waterLevel
      && volRem[pits[k]] == vols[k] && accumArea[pits[k]] == areas[k] && waterLevel[pits[k]] == levels[k]
  }

  /** One more pass of the loop keeps `ValuesAt`. */
  lemma ValuesAtSnoc(volRem: map<int, real>, accumArea: map<int, real>, waterLevel: map<int, real>,
                     pits: seq<int>, vols: seq<real>, areas: seq<real>, levels: seq<real>, m: nat)
    requires m < |pits| && m < |vols| && m < |areas| && m < |levels|
    requires ValuesAt(volRem, accumArea, waterLevel, pits, vols, areas, levels, m)
    ensures ValuesAt(volRem[pits[m] := vols[m]], accumArea[pits[m] := areas[m]], waterLevel[pits[m] := levels[m]],
                     pits, vols, areas, levels, m + 1)
  {
    forall k | 0 <= k < m + 1 && LastAt(pits, m + 1, k)
      ensures pits[k] in volRem[pits[m] := vols[m]] && volRem[pits[m] := vols[m]][pits[k]] == vols[k]
      ensures pits[k] in accumArea[pits[m] := areas[m]] && accumArea[pits[m] := areas[m]][pits[k]] == areas[k]
      ensures pits[k] in waterLevel[pits[m] := levels[m]] && waterLevel[pits[m] := levels[m]][pits[k]] == levels[k]
    {
      if k < m {
        assert LastAt(pits, m, k);
        assert pits[k] != pits[m];
      }
    }
  }

  predicate KeysAre(d: LakeDicts, ks: set<int>)
  {
    && d.volRem.Keys == ks && d.accumArea.Keys == ks && d.waterLevel.Keys == ks
    && d.isFull.Keys == ks && d.volBalance.Keys == ks && d.accumKs.Keys == ks
  }

  /** Adding one pit to all six dictionaries adds it to their common keys. */
  lemma KeysAreInsert(d: LakeDicts, ks: set<int>, pit: int, vol: real, area: real, level: real)
    requires KeysAre(d, ks)
    ensures KeysAre(LakeDicts(d.volRem[pit := vol], d.accumArea[pit := area], d.waterLevel[pit := level],
                              d.isFull[pit := false], d.volBalance[pit := 0.0], d.accumKs[pit := 0.0]),
                    ks + {pit})
  {
  }

  method InitLakeDicts(pits: seq<int>, vols: seq<real>, areas: seq<real>, levels: seq<real>)
    returns (d: LakeDicts)
    ensures var m := ZipLength(|pits|, |vols|, |areas|, |levels|);
      KeysAre(d, PitsOf(pits, m))
    ensures ValuesAt(d.volRem, d.accumArea, d.waterLevel, pits, vols, areas, levels,
                     ZipLength(|pits|, |vols|, |areas|, |levels|))
    ensures forall p :: p in d.isFull ==>
      !d.isFull[p] && p in d.volBalance && d.volBalance[p] == 0.0 && p in d.accumKs && d.accumKs[p] == 0.0
  {
    var m := ZipLength(|pits|, |vols|, |areas|, |levels|);
    var volRem: map<int, real>, accumArea: map<int, real>, waterLevel: map<int, real> := map[], map[], map[];
    var isFull: map<int, bool>, volBalance: map<int, real>, accumKs: map<int, real> := map[], map[], map[];
    var i := 0;
    while i < m
      invariant 0 <= i <= m
      invariant KeysAre(LakeDicts(volRem, accumArea, waterLevel, isFull, volBalance, accumKs), PitsOf(pits, i))
      invariant ValuesAt(volRem, accumArea, waterLevel, pits, vols, areas, levels, i)
      invariant forall p :: p in isFull ==> !isFull[p] && volBalance[p] == 0.0 && accumKs[p] == 0.0
    {
      var pit := pits[i];
      ValuesAtSnoc(volRem, accumArea, waterLevel, pits, vols, areas, levels, i);
      KeysAreInsert(LakeDicts(volRem, accumArea, waterLevel, isFull, volBalance, accumKs), PitsOf(pits, i),
                    pit, vols[i], areas[i], levels[i]);
      volRem := volRem[pit := vols[i]];
      accumArea := accumArea[pit := areas[i]];
      waterLevel := waterLevel[pit := levels[i]];
      isFull := isFull[pit := false];
      volBalance := volBalance[pit := 0.0];
      accumKs := accumKs[pit := 0.0];
      PitsOfSnoc(pits, i);
      i := i + 1;
    }
    d := LakeDicts(volRem, accumArea, waterLevel, isFull, volBalance, accumKs);
  }
}
