/** Causal and padding masks: where the kernel applies them, which lane owns which column, and
    why leaving them out elsewhere loses nothing. */
module Masks {
  import opened Softmax
  import T = Tiles

  const BLOCK_N: int := 64

  /** A query row of a workgroup: row `lane` of wave `wave` of the block of 32 * `waves` rows that
      starts at qStart. */
  datatype Row = Row(causal: bool, cross: bool, waves: nat, qStart: nat, wave: nat, lane: nat, seqlenQ: nat, seqlenKv: nat) {
    function Delta(): int { seqlenKv - seqlenQ }
    function WaveStart(): int { qStart + wave * 32 }
    function Q(): int { WaveStart() + lane }
    function Block(): T.Block { T.Block(causal, qStart, 32 * waves, seqlenKv, Delta()) }
  }

  /** A real row of a launch; without cross-sequence lengths causal attention is square. */
  predicate RowOk(r: Row) {
    && r.seqlenKv >= 1 && r.wave < r.waves && r.lane < 32 && r.Q() < r.seqlenQ
    && (r.waves == 4 || r.waves == 8) && r.qStart % (if r.waves == 4 then 128 else 256) == 0
    && (r.causal && !r.cross ==> r.Delta() == 0)
  }

  predicate Visible(r: Row, key: int) {
    key < r.seqlenKv && (r.causal ==> key <= r.Q() + r.Delta())
  }

  /** MAIN. The diagonal is aligned at the bottom right: the row's distance to the last query bounds the key's
      distance to the last key. */
  lemma VisibleIs(r: Row, key: nat)
    requires RowOk(r)
    ensures Visible(r, key) <==>
      key < r.seqlenKv && (r.causal ==> r.seqlenQ - (r.qStart + 32 * r.wave + r.lane) <= r.seqlenKv - key)
    ensures r.Q() == r.qStart + 32 * r.wave + r.lane
  {
  }

  /** The last query sees every key, and each query before it one key less, down to none. */
  lemma VisibleCount(r: Row, key: nat)
    requires RowOk(r) && r.causal
    ensures var after := r.seqlenQ - 1 - r.Q(); after >= 0 && (Visible(r, key) <==> key + after < r.seqlenKv)
    ensures r.Q() + 1 == r.seqlenQ ==> (Visible(r, key) <==> key < r.seqlenKv)
  {
  }

  /** MAIN. The waves' lanes are the rows of the block, each exactly once. */
  lemma RowsOnce(r: Row, q: nat)
    requires r.wave < r.waves && r.lane < 32 && r.qStart <= q < r.qStart + 32 * r.waves
    ensures r.Q() == q <==> r.wave == (q - r.qStart) / 32 && r.lane == (q - r.qStart) % 32
    ensures (q - r.qStart) / 32 < r.waves && r.qStart <= r.Q() < r.qStart + 32 * r.waves
  {
  }

  // ------------------------------------------------------------------ lanes and columns

  /** Column of a lane's score `i` within its 32-column half, for the plain and the
      vectorized K layout; lanes 32..63 of the wave are shifted by half a granule. */
  function Threshold(vectorized: bool, i: nat): nat {
    if vectorized then (i / 8) * 16 + i % 8 else (i / 4) * 8 + i % 4
  }

  function LaneOffset(vectorized: bool, laneDiv: nat): nat {
    laneDiv * if vectorized then 8 else 4
  }

  function Column(vectorized: bool, laneDiv: nat, half: nat, i: nat): nat {
    Threshold(vectorized, i) + LaneOffset(vectorized, laneDiv) + 32 * half
  }

  /** MAIN. The two half-waves' 2 x 16 scores are the 64 columns of a tile, each once. */
  lemma ColumnsOnce(vectorized: bool, col: nat, laneDiv: nat, half: nat, i: nat)
    requires col < 64 && laneDiv < 2 && half < 2 && i < 16
    ensures Column(vectorized, laneDiv, half, i) < 64
    ensures Column(vectorized, laneDiv, half, i) == col <==>
      && half == col / 32
      && laneDiv == (if vectorized then (col / 8) % 2 else (col / 4) % 2)
      && i == (if vectorized then (col % 32) / 16 * 8 + col % 8 else (col % 32) / 8 * 4 + col % 4)
  {
    if vectorized {
      EightDigits(col, half, i / 8, laneDiv, i % 8);
    } else {
      FourDigits(col, half, i / 4, laneDiv, i % 4);
    }
  }

  lemma EightDigits(col: nat, half: nat, a: nat, laneDiv: nat, b: nat)
    requires half < 2 && a < 2 && laneDiv < 2 && b < 8
    ensures 32 * half + 16 * a + 8 * laneDiv + b == col <==>
      half == col / 32 && a == (col % 32) / 16 && laneDiv == (col / 8) % 2 && b == col % 8 && col < 64
  {
  }

  lemma FourDigits(col: nat, half: nat, a: nat, laneDiv: nat, b: nat)
    requires half < 2 && a < 4 && laneDiv < 2 && b < 4
    ensures 32 * half + 8 * a + 4 * laneDiv + b == col <==>
      half == col / 32 && a == (col % 32) / 8 && laneDiv == (col / 4) % 2 && b == col % 4 && col < 64
  {
  }

  /** The immediate pairs of the causal mask instruction. */
  function PairThresholds(vectorized: bool): seq<(int, int)> {
    if vectorized then [(0, 1), (2, 3), (4, 5), (6, 7), (16, 17), (18, 19), (20, 21), (22, 23)]
    else [(0, 1), (2, 3), (8, 9), (10, 11), (16, 17), (18, 19), (24, 25), (26, 27)]
  }

  lemma PairsAreThresholds(vectorized: bool, p: nat)
    requires p < 8
    ensures PairThresholds(vectorized)[p] == (Threshold(vectorized, 2 * p), Threshold(vectorized, 2 * p + 1))
  {
  }

  // ------------------------------------------------------------------ masks, in place

  method ApplyMaskPairs(values: array<Score>, rel: int, vectorized: bool)
    requires values.Length == 16
    modifies values
    ensures forall i :: 0 <= i < 16 ==> values[i] == if rel < Threshold(vectorized, i) then NegInf else old(values[i])
  {
    var pairs := PairThresholds(vectorized);
    for p := 0 to |pairs|
      invariant forall i :: 0 <= i < 2 * p ==> values[i] == if rel < Threshold(vectorized, i) then NegInf else old(values[i])
      invariant forall i :: 2 * p <= i < 16 ==> values[i] == old(values[i])
    {
      PairsAreThresholds(vectorized, p);
      var (x, y) := pairs[p];
      if rel < x { values[2 * p] := NegInf; }
      if rel < y { values[2 * p + 1] := NegInf; }
    }
  }

  /** Masks a lane's two halves: exactly the columns to the right of the diagonal become -inf. */
  method CausalMaskInPlace(lo: array<Score>, hi: array<Score>, r: Row, tile: nat, laneDiv: nat, vectorized: bool)
    requires lo.Length == hi.Length == 16 && lo != hi
    modifies lo, hi
    ensures forall i :: 0 <= i < 16 ==>
      && lo[i] == (if tile * BLOCK_N + Column(vectorized, laneDiv, 0, i) > r.Q() + r.Delta() then NegInf else old(lo[i]))
      && hi[i] == (if tile * BLOCK_N + Column(vectorized, laneDiv, 1, i) > r.Q() + r.Delta() then NegInf else old(hi[i]))
  {
    var relLo := r.Q() + r.Delta() - tile * BLOCK_N - LaneOffset(vectorized, laneDiv);
    ApplyMaskPairs(lo, relLo, vectorized);
    ApplyMaskPairs(hi, relLo - 32, vectorized);
  }

  method SeqPadMaskInPlace(lo: array<Score>, hi: array<Score>, r: Row, tile: nat, laneDiv: nat, vectorized: bool)
    requires lo.Length == hi.Length == 16 && lo != hi
    modifies lo, hi
    ensures forall i :: 0 <= i < 16 ==>
      && lo[i] == (if tile * BLOCK_N + Column(vectorized, laneDiv, 0, i) < r.seqlenKv then old(lo[i]) else NegInf)
      && hi[i] == (if tile * BLOCK_N + Column(vectorized, laneDiv, 1, i) < r.seqlenKv then old(hi[i]) else NegInf)
  {
    var colBase := tile * BLOCK_N + LaneOffset(vectorized, laneDiv);
    for i := 0 to 16
      invariant forall k :: 0 <= k < i ==>
        && lo[k] == (if tile * BLOCK_N + Column(vectorized, laneDiv, 0, k) < r.seqlenKv then old(lo[k]) else NegInf)
        && hi[k] == (if tile * BLOCK_N + Column(vectorized, laneDiv, 1, k) < r.seqlenKv then old(hi[k]) else NegInf)
      invariant forall k :: i <= k < 16 ==> lo[k] == old(lo[k]) && hi[k] == old(hi[k])
    {
      var colLo := colBase + Threshold(vectorized, i);
      if colLo >= r.seqlenKv { lo[i] := NegInf; }
      if colLo + 32 >= r.seqlenKv { hi[i] := NegInf; }
    }
  }

  // ------------------------------------------------------------ where masks are applied

  datatype Point = Prologue | OddLoop | EvenLoop | Epilogue

  /** Where tile `x` of a segment of `n` tiles is scored. */
  function PointOf(x: nat, n: nat): Point {
    if x == 0 then Prologue else if x + 3 >= n then Epilogue else if x % 2 == 1 then OddLoop else EvenLoop
  }

  /** Whether the program has a mask call at a point. */
  predicate MasksAt(r: Row, p: Point) {
    match p
    case Prologue => true
    case OddLoop => r.causal && r.cross
    case EvenLoop => r.causal
    case Epilogue => true
  }

  /** Whether a mask call does anything: the tile ends past the wave's first diagonal, or past
      the last key. */
  predicate Needed(r: Row, tile: nat) {
    if r.causal then r.WaveStart() + r.Delta() < (tile + 1) * BLOCK_N else (tile + 1) * BLOCK_N > r.seqlenKv
  }

  /** Mask calls are left out of loop tiles only: of all for non-causal rows, of the odd ones for square causal ones. */
  lemma UnmaskedPoints(r: Row, x: nat, n: nat)
    requires n % 2 == 0 && n >= 4 && x < n
    ensures MasksAt(r, PointOf(x, n)) <==> x == 0 || x + 3 >= n || (r.causal && (r.cross || x % 2 == 0))
  {
  }

  /** What a mask call leaves of a key. */
  predicate Kept(r: Row, key: int) {
    if r.causal then key <= r.Q() + r.Delta() else key < r.seqlenKv
  }

  lemma KeptIsVisible(r: Row, key: int)
    requires RowOk(r)
    ensures Kept(r, key) <==> Visible(r, key)
  {
  }

  /** MAIN. The masks that are applied are all that is needed: a key survives at its tile's program
      point exactly when the row may see it, whatever the split. */
  lemma MaskingIsComplete(r: Row, t0: nat, n: nat, x: nat, key: nat)
    requires RowOk(r) && t0 % 2 == 0 && n % 2 == 0 && n >= 4 && x < n && t0 + n <= T.MaxTiles(r.Block())
    requires (t0 + x) * BLOCK_N <= key < (t0 + x + 1) * BLOCK_N
    ensures (MasksAt(r, PointOf(x, n)) && Needed(r, t0 + x) ==> Kept(r, key)) <==> Visible(r, key)
  {
    KeptIsVisible(r, key);
    if !MasksAt(r, PointOf(x, n)) {
      if r.causal { SquareLoopTile(r, t0 + x, t0 + n); } else { FullLoopTile(r, t0 + x, t0 + n); }
    }
  }

  /** Square causal attention: a tile at least 5 before the end of the segment lies wholly below
      the block's diagonal. */
  lemma SquareLoopTile(r: Row, t: nat, tEnd: nat)
    requires RowOk(r) && r.causal && !r.cross && t + 4 <= tEnd <= T.MaxTiles(r.Block()) && t % 2 == 1 && tEnd % 2 == 0
    ensures (t + 1) * BLOCK_N <= r.qStart
  {
    hide T.MaxTiles;
    SquareEnd(r);
  }

  lemma SquareEnd(r: Row)
    requires RowOk(r) && r.causal && !r.cross
    ensures T.MaxTiles(r.Block()) == 4 || T.MaxTiles(r.Block()) * BLOCK_N <= r.qStart + 256
  {
    hide T.MaxTiles;
    var q := BlockNumber(r);
    CausalTiles(r.Block(), q + 2);
  }

  lemma BlockNumber(r: Row) returns (q: nat)
    requires RowOk(r) && r.causal && !r.cross
    ensures r.qStart == 128 * q && r.Block().causal && T.CausalEnd(r.Block()) <= 128 * (q + 2)
  {
    q := r.qStart / 128;
  }

  lemma CausalTiles(b: T.Block, k: nat)
    requires b.causal && T.CausalEnd(b) <= 128 * k
    ensures T.MaxTiles(b) == 4 || T.MaxTiles(b) <= 2 * k
  {
    assert T.CeilDiv(T.CausalEnd(b), 64) <= 2 * k;
  }

  lemma FullLoopTile(r: Row, t: nat, tEnd: nat)
    requires RowOk(r) && !r.causal && 1 <= t && t + 4 <= tEnd <= T.MaxTiles(r.Block())
    ensures (t + 1) * BLOCK_N <= r.seqlenKv
  {
  }
}
