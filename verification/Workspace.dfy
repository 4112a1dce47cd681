/** The split-K workspace: where each split stores a row of its partial output, its maximum and its
    sum, and where the combine pass looks for them. Addresses are in 4-byte words. */
module Workspace {
  import opened Arith

  /** `half` is the number of words of a row of partial output: two 16-bit columns each. */
  datatype Shape = Shape(batches: nat, splits: nat, heads: nat, seqLen: nat, half: nat)

  predicate ShapeOk(s: Shape) { s.half > 0 && s.half % 16 == 0 && s.splits > 0 }

  function Z(s: Shape): nat { s.batches * s.splits }
  function Rows(s: Shape): nat { s.batches * s.splits * s.heads * s.seqLen }

  /** dualwave_splitk_workspace_elems. */
  function Elems(s: Shape): nat { Rows(s) * s.half + 2 * Rows(s) }

  /** A row of a split: split_z, query head, query row. */
  predicate RowIn(s: Shape, z: nat, h: nat, row: nat) { z < Z(s) && h < s.heads && row < s.seqLen }

  function RowIdx(s: Shape, z: nat, h: nat, row: nat): nat { (z * s.heads + h) * s.seqLen + row }

  // ---------------------------------------------------------- the flat form of the addresses

  function FlatO(s: Shape, idx: nat): nat { idx * s.half }
  function FlatM(s: Shape, idx: nat): nat { Rows(s) * s.half + idx }
  function FlatL(s: Shape, idx: nat): nat { Rows(s) * s.half + Rows(s) + idx }

  /** Word column of a lane's quad: chunk dc, group g, half of the wave. */
  function QuadCol(dc: nat, g: nat, laneDiv: nat): nat { dc * 16 + (2 * g + laneDiv) * 4 }

  lemma RowIdxBound(s: Shape, z: nat, h: nat, row: nat)
    requires RowIn(s, z, h, row)
    ensures RowIdx(s, z, h, row) < Rows(s)
  {
    var n := s.heads * Z(s);
    MulLe(z + 1, Z(s), s.heads);
    assert (z + 1) * s.heads == z * s.heads + s.heads;
    assert z * s.heads + h + 1 <= Z(s) * s.heads;
    MulLe(z * s.heads + h + 1, Z(s) * s.heads, s.seqLen);
    assert (z * s.heads + h + 1) * s.seqLen == (z * s.heads + h) * s.seqLen + s.seqLen;
  }

  lemma RowIdxInjective(s: Shape, z: nat, h: nat, row: nat, z': nat, h': nat, row': nat)
    requires RowIn(s, z, h, row) && RowIn(s, z', h', row') && RowIdx(s, z, h, row) == RowIdx(s, z', h', row')
    ensures z == z' && h == h' && row == row'
  {
    DivIs(RowIdx(s, z, h, row), s.seqLen, z * s.heads + h, row);
    DivIs(RowIdx(s, z, h, row), s.seqLen, z' * s.heads + h', row');
    DivIs(z * s.heads + h, s.heads, z, h);
    DivIs(z * s.heads + h, s.heads, z', h');
  }

  predicate Covers(s: Shape, idx: nat, a: int) {
    FlatO(s, idx) <= a < FlatO(s, idx) + s.half || a == FlatM(s, idx) || a == FlatL(s, idx)
  }

  /** MAIN. The three regions follow each other, fill the workspace, and no word belongs to two rows. */
  lemma RegionsAreDisjoint(s: Shape, idx: nat, idx': nat, a: int)
    requires idx < Rows(s) && idx' < Rows(s)
    ensures FlatO(s, idx) + s.half <= Rows(s) * s.half <= FlatM(s, idx) < Rows(s) * s.half + Rows(s) <= FlatL(s, idx) < Elems(s)
    ensures Covers(s, idx, a) ==> 0 <= a < Elems(s)
    ensures Covers(s, idx, a) && Covers(s, idx', a) ==> idx == idx'
  {
    RowsOrdered(s, idx, Rows(s));
    RowsOrdered(s, idx', Rows(s));
    if idx < idx' { RowsOrdered(s, idx, idx'); }
    if idx' < idx { RowsOrdered(s, idx', idx); }
  }

  /** MAIN. The workspace is no larger than it has to be: every word belongs to a row. */
  lemma EveryWordHasARow(s: Shape, a: nat)
    requires s.half > 0 && a < Elems(s)
    ensures var o := Rows(s) * s.half; var idx := if a < o then a / s.half else (a - o) % Rows(s);
      Rows(s) > 0 && 0 <= idx < Rows(s) && Covers(s, idx, a)
  {
    hide Rows;
    var o := Rows(s) * s.half;
    if a < o {
      DivBelow(a, s.half, Rows(s));
      DivBounds(a, s.half);
    } else if a - o < Rows(s) {
      DivIs(a - o, Rows(s), 0, a - o);
    } else {
      DivIs(a - o, Rows(s), 1, a - o - Rows(s));
    }
  }

  lemma RowsOrdered(s: Shape, idx: nat, idx': nat)
    requires idx < idx'
    ensures FlatO(s, idx) + s.half <= idx' * s.half && FlatO(s, idx) >= 0
  {
    MulLe(idx + 1, idx', s.half);
    assert (idx + 1) * s.half == idx * s.half + s.half;
  }

  // ------------------------------------------- the form with one descriptor per split

  function OpartWords(s: Shape): nat { s.heads * s.seqLen * s.half }
  function MlWords(s: Shape): nat { s.heads * s.seqLen }

  function LocalO(s: Shape, h: nat, row: nat, col: nat): nat { (h * s.seqLen + row) * s.half + col }
  function LocalMl(s: Shape, h: nat, row: nat): nat { h * s.seqLen + row }

  /** Byte addresses behind the descriptors of split_z. */
  function OByte(s: Shape, z: nat, offset: nat): nat { z * (OpartWords(s) * 4) + offset * 4 }
  function MByte(s: Shape, z: nat, offset: nat): nat { Z(s) * (OpartWords(s) * 4) + z * (MlWords(s) * 4) + offset * 4 }
  function LByte(s: Shape, z: nat, offset: nat): nat {
    Z(s) * (OpartWords(s) * 4) + Z(s) * (MlWords(s) * 4) + z * (MlWords(s) * 4) + offset * 4
  }

  lemma RowsAre(s: Shape)
    ensures Z(s) * MlWords(s) == Rows(s) && Z(s) * OpartWords(s) == Rows(s) * s.half
  {
    assert Z(s) * (s.heads * s.seqLen) == Z(s) * s.heads * s.seqLen;
    assert OpartWords(s) == MlWords(s) * s.half;
    Associate(Z(s), MlWords(s), s.half);
  }

  lemma Associate(a: int, b: int, c: int)
    ensures a * (b * c) == (a * b) * c
  {
  }

  lemma TimesFour(a: int, b: int)
    ensures a * (b * 4) == 4 * (a * b)
  {
  }

  lemma RowIdxIs(s: Shape, z: nat, h: nat, row: nat)
    ensures RowIdx(s, z, h, row) == z * MlWords(s) + LocalMl(s, h, row)
  {
    assert (z * s.heads + h) * s.seqLen == z * s.heads * s.seqLen + h * s.seqLen;
    Associate(z, s.heads, s.seqLen);
  }

  lemma FlatOIs(s: Shape, z: nat, h: nat, row: nat, col: nat)
    ensures FlatO(s, RowIdx(s, z, h, row)) + col == z * OpartWords(s) + LocalO(s, h, row, col)
  {
    RowIdxIs(s, z, h, row);
    var a, b := z * MlWords(s), LocalMl(s, h, row);
    assert (a + b) * s.half == a * s.half + b * s.half;
    Associate(z, MlWords(s), s.half);
  }

  /** MAIN. Both forms are the same addresses, and the descriptors' bounds drop none of them. */
  lemma FormsAgree(s: Shape, z: nat, h: nat, row: nat, col: nat)
    requires RowIn(s, z, h, row) && col < s.half
    ensures var idx := RowIdx(s, z, h, row);
      && OByte(s, z, LocalO(s, h, row, col)) == 4 * (FlatO(s, idx) + col)
      && MByte(s, z, LocalMl(s, h, row)) == 4 * FlatM(s, idx) && LByte(s, z, LocalMl(s, h, row)) == 4 * FlatL(s, idx)
    ensures LocalO(s, h, row, col) < OpartWords(s) && LocalMl(s, h, row) < MlWords(s)
  {
    hide OpartWords, MlWords, LocalO, LocalMl, RowIdx, Rows, Z;
    RowsAre(s);
    RowIdxIs(s, z, h, row);
    FlatOIs(s, z, h, row, col);
    TimesFour(z, OpartWords(s));
    TimesFour(z, MlWords(s));
    TimesFour(Z(s), OpartWords(s));
    TimesFour(Z(s), MlWords(s));
    LocalBounds(s, h, row, col);
  }

  lemma LocalBounds(s: Shape, h: nat, row: nat, col: nat)
    requires h < s.heads && row < s.seqLen && col < s.half
    ensures LocalO(s, h, row, col) < OpartWords(s) && LocalMl(s, h, row) < MlWords(s)
  {
    MulLe(h + 1, s.heads, s.seqLen);
    assert (h + 1) * s.seqLen == h * s.seqLen + s.seqLen;
    MulLe(h * s.seqLen + row + 1, s.heads * s.seqLen, s.half);
    assert (h * s.seqLen + row + 1) * s.half == (h * s.seqLen + row) * s.half + s.half;
  }

  // ------------------------------------------------------------------ stores and loads

  /** What one row of one split stores. */
  datatype Store = Store(z: nat, h: nat, row: nat, words: seq<int>, m: int, l: int)

  predicate StoreOk(s: Shape, p: Store) { p.z < Z(s) && p.h < s.heads && |p.words| == s.half }

  function IdxOf(s: Shape, p: Store): nat { RowIdx(s, p.z, p.h, p.row) }

  /** The workspace has the store. */
  predicate Holds(ws: seq<int>, s: Shape, idx: nat, p: Store)
    requires idx < Rows(s) && |ws| == Elems(s)
  {
    RegionsAreDisjoint(s, idx, idx, 0);
    && |p.words| == s.half && ws[FlatO(s, idx)..FlatO(s, idx) + s.half] == p.words
    && ws[FlatM(s, idx)] == p.m && ws[FlatL(s, idx)] == p.l
  }

  /** The workspace has the store, at its own row. */
  predicate Stored(ws: seq<int>, s: Shape, p: Store) {
    |ws| == Elems(s) && IdxOf(s, p) < Rows(s) && Holds(ws, s, IdxOf(s, p), p)
  }

  predicate OnlyRow(s: Shape, idx: nat, before: seq<int>, after: seq<int>) {
    |before| == |after| && forall a :: 0 <= a < |before| && !Covers(s, idx, a) ==> after[a] == before[a]
  }

  /** Rows of other (split, head, row) triples keep what they have. */
  lemma OthersKept(s: Shape, idx: nat, idx': nat, before: seq<int>, after: seq<int>, p: Store)
    requires idx < Rows(s) && idx' < Rows(s) && idx != idx' && |before| == Elems(s)
    requires OnlyRow(s, idx, before, after) && Holds(before, s, idx', p)
    ensures Holds(after, s, idx', p)
  {
    hide Rows, FlatO, FlatM, FlatL;
    RegionsAreDisjoint(s, idx', idx', 0);
    forall a | 0 <= a < |before| && Covers(s, idx', a) ensures after[a] == before[a] {
      RegionsAreDisjoint(s, idx, idx', a);
    }
    var from := FlatO(s, idx');
    assert forall i :: from <= i < from + s.half ==> Covers(s, idx', i);
    assert after[from..from + s.half] == before[from..from + s.half];
  }

  method StoreQuad(ws: array<int>, at: nat, quad: seq<int>)
    requires at + 4 <= ws.Length && |quad| == 4
    modifies ws
    ensures forall a :: 0 <= a < ws.Length ==> ws[a] == if at <= a < at + 4 then quad[a - at] else old(ws[a])
  {
    for i := 0 to 4
      invariant forall a :: 0 <= a < ws.Length ==> ws[a] == if at <= a < at + i then quad[a - at] else old(ws[a])
    {
      ws[at + i] := quad[i];
    }
  }

  /** The quads of both half-waves: together the whole row. */
  method StoreORow(ws: array<int>, s: Shape, base: nat, words: seq<int>)
    requires ShapeOk(s) && base + s.half <= ws.Length && |words| == s.half
    modifies ws
    ensures ws[base..base + s.half] == words
    ensures forall a :: 0 <= a < ws.Length && !(base <= a < base + s.half) ==> ws[a] == old(ws[a])
  {
    for dc := 0 to s.half / 16
      invariant forall c :: 0 <= c < 16 * dc ==> ws[base + c] == words[c]
      invariant forall a :: 0 <= a < ws.Length && !(base <= a < base + s.half) ==> ws[a] == old(ws[a])
    {
      for q := 0 to 4
        invariant forall c :: 0 <= c < 16 * dc + 4 * q ==> ws[base + c] == words[c]
        invariant forall a :: 0 <= a < ws.Length && !(base <= a < base + s.half) ==> ws[a] == old(ws[a])
      {
        var col := QuadCol(dc, q / 2, q % 2);
        assert col == 16 * dc + 4 * q;
        StoreQuad(ws, base + col, words[col..col + 4]);
      }
    }
    forall c | 0 <= c < s.half ensures ws[base..base + s.half][c] == words[c] {
      assert ws[base..base + s.half][c] == ws[base + c];
    }
  }

  /** store_splitk_partial_o for one row; rows past the sequence store nothing. */
  method StorePartial(ws: array<int>, s: Shape, p: Store)
    requires ShapeOk(s) && StoreOk(s, p) && ws.Length == Elems(s)
    modifies ws
    ensures p.row < s.seqLen ==> OnlyRow(s, IdxOf(s, p), old(ws[..]), ws[..]) && Stored(ws[..], s, p)
    ensures p.row >= s.seqLen ==> ws[..] == old(ws[..])
  {
    hide Rows, FlatO, FlatM, FlatL, RowIdx, Z;
    if p.row < s.seqLen {
      RowIdxBound(s, p.z, p.h, p.row);
      var idx := IdxOf(s, p);
      RegionsAreDisjoint(s, idx, idx, 0);
      StoreORow(ws, s, FlatO(s, idx), p.words);
      ws[FlatM(s, idx)] := p.m;
      ws[FlatL(s, idx)] := p.l;
      assert ws[..][FlatO(s, idx)..FlatO(s, idx) + s.half] == p.words;
    }
  }

  predicate Distinct(s: Shape, stores: seq<Store>) {
    forall i, j :: 0 <= i < j < |stores| ==> Apart(stores[i], stores[j])
  }

  predicate Apart(p: Store, q: Store) { p.z != q.z || p.h != q.h || p.row != q.row }

  /** MAIN. All splits of all rows, in any order: in the end every row has what was stored for it. */
  method StoreAll(ws: array<int>, s: Shape, stores: seq<Store>)
    requires ShapeOk(s) && ws.Length == Elems(s) && Distinct(s, stores)
    requires forall i :: 0 <= i < |stores| ==> StoreOk(s, stores[i])
    modifies ws
    ensures forall i :: 0 <= i < |stores| && stores[i].row < s.seqLen ==> Stored(ws[..], s, stores[i])
  {
    hide Rows, RowIdx, Z, Holds, OnlyRow, Covers;
    for k := 0 to |stores|
      invariant forall i :: 0 <= i < k && stores[i].row < s.seqLen ==> Stored(ws[..], s, stores[i])
    {
      ghost var before := ws[..];
      StorePartial(ws, s, stores[k]);
      if stores[k].row < s.seqLen {
        forall i | 0 <= i < k && stores[i].row < s.seqLen ensures Stored(ws[..], s, stores[i]) {
          assert Apart(stores[i], stores[k]);
          IdxApart(s, stores[i], stores[k]);
          OthersKept(s, IdxOf(s, stores[k]), IdxOf(s, stores[i]), before, ws[..], stores[i]);
        }
      }
    }
  }

  lemma IdxApart(s: Shape, p: Store, q: Store)
    requires StoreOk(s, p) && StoreOk(s, q) && p.row < s.seqLen && q.row < s.seqLen && Apart(p, q)
    ensures IdxOf(s, p) != IdxOf(s, q)
  {
    hide RowIdx;
    if IdxOf(s, p) == IdxOf(s, q) {
      RowIdxInjective(s, p.z, p.h, p.row, q.z, q.h, q.row);
    }
  }

  /** MAIN. The loads of one combine lane, through the per-split descriptors: what that split stored. */
  method CombineLoad(ws: array<int>, s: Shape, batch: nat, split: nat, h: nat, row: nat, col: nat, ghost p: Store)
      returns (m: int, l: int, words: seq<int>)
    requires ShapeOk(s) && batch < s.batches && split < s.splits && h < s.heads && row < s.seqLen && col % 4 == 0 && col < 2 * s.half
    requires Stored(ws[..], s, p) && p.z == batch * s.splits + split && p.h == h && p.row == row
    ensures m == p.m && l == p.l && |words| == 2
    ensures col / 2 + 1 < |p.words| && words[0] == p.words[col / 2] && words[1] == p.words[col / 2 + 1]
  {
    hide *;
    var z := batch * s.splits + split;
    SplitZ(s, batch, split, h, row);
    ColumnFits(s, col);
    MlSeen(ws[..], s, p);
    WordSeen(ws[..], s, p, col / 2);
    WordSeen(ws[..], s, p, col / 2 + 1);
    m := ws[MByte(s, z, LocalMl(s, h, row)) / 4];
    l := ws[LByte(s, z, LocalMl(s, h, row)) / 4];
    var d0 := ws[OByte(s, z, LocalO(s, h, row, col / 2)) / 4];
    var d1 := ws[OByte(s, z, LocalO(s, h, row, col / 2 + 1)) / 4];
    words := [d0, d1];
  }

  lemma MlSeen(ws: seq<int>, s: Shape, p: Store)
    requires ShapeOk(s) && Stored(ws, s, p) && RowIn(s, p.z, p.h, p.row)
    ensures var a, b := MByte(s, p.z, LocalMl(s, p.h, p.row)) / 4, LByte(s, p.z, LocalMl(s, p.h, p.row)) / 4;
      0 <= a < |ws| && 0 <= b < |ws| && ws[a] == p.m && ws[b] == p.l
  {
    hide Rows, Elems, FlatO, FlatM, FlatL, RowIdx, OByte, MByte, LByte, LocalO, LocalMl, RowIn;
    RegionsAreDisjoint(s, IdxOf(s, p), IdxOf(s, p), 0);
    FormsAgree(s, p.z, p.h, p.row, 0);
  }

  lemma WordSeen(ws: seq<int>, s: Shape, p: Store, col: nat)
    requires ShapeOk(s) && Stored(ws, s, p) && RowIn(s, p.z, p.h, p.row) && col < s.half
    ensures var a := OByte(s, p.z, LocalO(s, p.h, p.row, col)) / 4; |p.words| == s.half && 0 <= a < |ws| && ws[a] == p.words[col]
  {
    hide Rows, Elems, FlatO, FlatM, FlatL, RowIdx, OByte, MByte, LByte, LocalO, LocalMl, RowIn;
    var idx := IdxOf(s, p);
    RegionsAreDisjoint(s, idx, idx, 0);
    FormsAgree(s, p.z, p.h, p.row, col);
    assert ws[FlatO(s, idx)..FlatO(s, idx) + s.half][col] == ws[FlatO(s, idx) + col];
  }

  lemma SplitZ(s: Shape, batch: nat, split: nat, h: nat, row: nat)
    requires batch < s.batches && split < s.splits && h < s.heads && row < s.seqLen
    ensures 0 <= batch * s.splits + split && RowIn(s, batch * s.splits + split, h, row)
  {
    MulLe(batch + 1, s.batches, s.splits);
    assert (batch + 1) * s.splits == batch * s.splits + s.splits;
  }

  lemma ColumnFits(s: Shape, col: nat)
    requires ShapeOk(s) && col % 4 == 0 && col < 2 * s.half
    ensures col / 2 + 1 < s.half
  {
  }

  // ------------------------------------------------------------------ combine threads

  /** Lanes per row, and rows per 256-thread block. */
  function Lanes(s: Shape): nat { s.half / 2 }
  function RowsPerBlock(s: Shape): nat
    requires Lanes(s) > 0
  {
    256 / Lanes(s)
  }

  /** The row (within the batch) and column of a thread; threads beyond the last full row get none. */
  function CombineRow(s: Shape, blk: nat, tid: nat): nat
    requires Lanes(s) > 0
  {
    if tid < RowsPerBlock(s) * Lanes(s) then blk * RowsPerBlock(s) + tid / Lanes(s) else s.seqLen * s.heads
  }

  function CombineCol(s: Shape, tid: nat): nat
    requires Lanes(s) > 0
  {
    tid % Lanes(s) * 4
  }

  function CombineBlocks(s: Shape): nat
    requires 0 < Lanes(s) && RowsPerBlock(s) > 0
  {
    (s.heads * s.seqLen + RowsPerBlock(s) - 1) / RowsPerBlock(s)
  }

  /** MAIN. Every four columns of every row of the batch are combined by exactly one launched thread. */
  lemma CombineCoversOnce(s: Shape, row: nat, q: nat, blk: nat, tid: nat)
    requires ShapeOk(s) && Lanes(s) <= 256 && row < s.heads * s.seqLen && q < Lanes(s) && tid < 256
    ensures RowsPerBlock(s) > 0 && row / RowsPerBlock(s) < CombineBlocks(s)
    ensures CombineRow(s, blk, tid) == row && CombineCol(s, tid) == 4 * q <==>
      blk == row / RowsPerBlock(s) && tid == row % RowsPerBlock(s) * Lanes(s) + q
  {
    var n, per := Lanes(s), RowsPerBlock(s);
    BlockFits(n);
    assert per == 256 / n && per * n <= 256 && per > 0;
    BlockLaunched(row, s.heads * s.seqLen, per);
    ThreadDigits(row, q, blk, tid, n, per);
    assert s.seqLen * s.heads == s.heads * s.seqLen;
  }

  lemma BlockFits(n: nat)
    requires 0 < n <= 256
    ensures 256 / n > 0 && (256 / n) * n <= 256
  {
    DivBounds(256, n);
  }

  lemma BlockLaunched(row: nat, rows: nat, per: nat)
    requires row < rows && per > 0
    ensures row / per < (rows + per - 1) / per
  {
    var a, b := row / per, (rows + per - 1) / per;
    DivBounds(row, per);
    DivBounds(rows + per - 1, per);
    if b <= a { MulLe(b, a, per); }
  }

  lemma ThreadDigits(row: nat, q: nat, blk: nat, tid: nat, n: nat, per: nat)
    requires q < n && per > 0
    ensures tid < per * n && blk * per + tid / n == row && tid % n == q <==> blk == row / per && tid == row % per * n + q
  {
    var t := tid / n;
    assert tid == t * n + tid % n;
    if tid < per * n && blk * per + t == row && tid % n == q {
      DivBelow(tid, n, per);
      DivIs(row, per, blk, t);
    }
    if blk == row / per && tid == row % per * n + q {
      DivIs(tid, n, row % per, q);
      MulLe(row % per + 1, per, n);
      assert (row % per + 1) * n == row % per * n + n;
      assert row == per * (row / per) + row % per && per * blk == blk * per;
    }
  }
}
