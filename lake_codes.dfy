/** The integer coding of the lake map: one int per node, with
    -1 (or any negative value) for a node no lake has claimed,
    [0, n) for a node flooded by the lake of that pit,
    [n, 2n) for a candidate neighbour of the lake of pit `code - n`, and
    2n and above for the spill node claimed by the lake of pit `code - 2n`,
    where n is the number of nodes. */
module LakeCodes {

  datatype Claim = Unclaimed | Owned(pit: int) | Candidate(pit: int) | Spill(pit: int)

  /** `pit_nghb_code`: the mark of a candidate neighbour of `pit`'s lake. */
  function NghbCode(pit: int, n: nat): int
  {
    pit + n
  }

  /** `spill_code`: the mark of the spill node of `pit`'s lake. */
  function SpillCode(pit: int, n: nat): int
  {
    NghbCode(pit, n) + n
  }

  /** A claim whose pit is a node of a grid of `n` nodes. */
  predicate ClaimFits(c: Claim, n: nat)
  {
    c.Unclaimed? || 0 <= c.pit < n
  }

  /** What a lake-map entry means. The three tests the lake filler makes on
      an entry pick out exactly one kind of claim each. */
  function Decode(code: int, n: nat): (c: Claim)
    ensures c.Owned? <==> 0 <= code < n
    ensures c.Spill? <==> code >= 2 * n
    ensures c.Unclaimed? <==> code < 0
    ensures -1 <= code < 3 * n ==> ClaimFits(c, n)
  {
    if code < 0 then Unclaimed
    else if code < n then Owned(code)
    else if code < 2 * n then Candidate(code - n)
    else Spill(code - 2 * n)
  }

  /** The entry that stands for a claim. */
  function Encode(c: Claim, n: nat): (code: int)
    ensures ClaimFits(c, n) ==> Decode(code, n) == c && -1 <= code < 3 * n
  {
    match c
    case Unclaimed => -1
    case Owned(p) => p
    case Candidate(p) => NghbCode(p, n)
    case Spill(p) => SpillCode(p, n)
  }

  /** Every entry in [-1, 3n) is the coding of the claim it decodes to. */
  lemma EncodeDecode(code: int, n: nat)
    requires -1 <= code < 3 * n
    ensures Encode(Decode(code, n), n) == code
  {
  }

  /** `freshnode` (lines 368-369): a node not yet flooded by any lake. */
  function IsFresh(code: int, n: nat): (b: bool)
    ensures b <==> !Decode(code, n).Owned?
  {
    code < 0 || code >= n
  }

  /** `max((pit_nghb_code, old))` (line 458): marking a neighbour as a
      candidate of `pit`'s lake never lowers its entry, so a spill claim is
      kept, an unclaimed or flooded node becomes a candidate of `pit`, and a
      candidate of a higher-numbered pit stays that pit's candidate. */
  function CandidateMark(code: int, pit: int, n: nat): (r: int)
    requires 0 <= pit < n
    ensures r >= code && r >= NghbCode(pit, n)
    ensures Decode(code, n).Spill? ==> r == code
    ensures code < NghbCode(pit, n) ==> Decode(r, n) == Candidate(pit)
    ensures code >= NghbCode(pit, n) ==> r == code
  {
    if NghbCode(pit, n) >= code then NghbCode(pit, n) else code
  }
}
