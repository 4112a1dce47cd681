/** The schedules and the rows together: the tiles that a wave's LDS reads really saw, in a completed
    run under any interleaving, are the tiles whose keys its rows score and whose values they weigh. */
module Observed {
  import opened Machine
  import opened Masks
  import opened Rings
  import opened Rows
  import opened Softmax
  import D = Dualwave
  import DR = DualwaveRow
  import F = Fp8Ring
  import FR = Fp8Row
  import M = MlaRing
  import MR = MlaRow
  import MS = MlaRows
  import P = PagedRing
  import S = SealedRow
  import SS = ScaledSoftmax
  import T = Tiles

  /** Wave `w` has finished in this run, and this is what it read. */
  ghost predicate Completed(p: Prog, steps: seq<Step>, w: nat, log: seq<Obs>) {
    && CanRun(p, Init(p), steps)
    && var st := Final(p, Init(p), steps); w < |st| && Done(p, w, st[w]) && log == st[w].log
  }

  /** The one tile that a read saw; -1 if it saw none, or a mixture. */
  ghost function Seen(o: Obs): int {
    if exists t :: o.tiles == {t} then var t :| o.tiles == {t}; t else -1
  }

  /** The tile that the n-th read of a kind saw. */
  ghost function ReadNo(log: seq<Obs>, kind: Kind, n: nat): int {
    if n < |Reads(log, kind)| then Seen(Reads(log, kind)[n]) else -1
  }

  lemma SeenIs(o: Obs, t: int)
    requires o.tiles == {t}
    ensures Seen(o) == t
  {
    var u :| o.tiles == {u} && Seen(o) == u;
    assert u in {t};
  }

  lemma ReadNoIs(p: Prog, l: Layout, steps: seq<Step>, w: nat, kind: Kind, count: nat, log: seq<Obs>, n: nat)
    requires Completed(p, steps, w, log) && ReadsAll(p, l, steps, w, kind, count) && n < count
    ensures ReadNo(log, kind, n) == l.base + l.TileOf(kind, n)
  {
    hide CanRun, Final, Done, Enabled, TotalLeft, Reads;
    assert Reads(log, kind)[n] == InOrder(l, kind, count)[n];
    SeenIs(Reads(log, kind)[n], l.base + l.TileOf(kind, n));
  }

  // ------------------------------------------------------ rows fed by a log, 64-key tiles

  /** Step number x of a row: logits of what K read x saw, masked by the loop's own tile number t, and
      values of what V read x saw. */
  ghost function StepKeys(r: Row, d: Data, t: nat, k: int, v: int): seq<Key> {
    if k < 0 || v < 0 then []
    else seq(64, i requires 0 <= i < 64 => Key(if Visible(r, 64 * t + i) then Fin(d.score(64 * k + i)) else NegInf, d.value(64 * v + i)))
  }

  ghost function Consumed(r: Row, d: Data, log: seq<Obs>, t0: nat, n: nat): seq<Key> {
    if n == 0 then [] else Consumed(r, d, log, t0, n - 1) + StepKeys(r, d, t0 + n - 1, ReadNo(log, KTile, n - 1), ReadNo(log, VTile, n - 1))
  }

  /** K and V read number x both saw tile t0 + x. */
  ghost predicate Paired(log: seq<Obs>, t0: nat, n: nat) {
    forall x: nat :: x < n ==> ReadNo(log, KTile, x) == t0 + x && ReadNo(log, VTile, x) == t0 + x
  }

  lemma StepIsSeenTile(r: Row, d: Data, t: nat)
    ensures StepKeys(r, d, t, t, t) == SeenTile(r, d, t)
  {
    forall i | 0 <= i < 64 ensures StepKeys(r, d, t, t, t)[i] == SeenTile(r, d, t)[i] {
      assert SeenTile(r, d, t)[i] == SeenKey(r, d, 64 * t + i);
    }
  }

  lemma {:induction false} ConsumedIsSpan(r: Row, d: Data, log: seq<Obs>, t0: nat, n: nat)
    requires Paired(log, t0, n)
    ensures Consumed(r, d, log, t0, n) == Span(r, d, t0, n)
    decreases n
  {
    hide StepKeys, SeenTile, ReadNo;
    if n > 0 {
      ConsumedIsSpan(r, d, log, t0, n - 1);
      StepIsSeenTile(r, d, t0 + n - 1);
    }
  }

  // ---------------------------------------------------------------------- dual-wave

  lemma DualwavePaired(c: D.Config, steps: seq<Step>, w: nat, log: seq<Obs>)
    requires D.ConfigOk(c) && w < c.waves && Completed(D.Pipeline(c), steps, w, log)
    ensures Paired(log, c.t0, c.n)
  {
    hide D.Pipeline, ReadsAll, ReadNo, CanRun, Final;
    D.TilesInOrder(c, steps, w, KTile);
    D.TilesInOrder(c, steps, w, VTile);
    forall x: nat | x < c.n ensures ReadNo(log, KTile, x) == c.t0 + x && ReadNo(log, VTile, x) == c.t0 + x {
      ReadNoIs(D.Pipeline(c), D.TwoSlots(c), steps, w, KTile, c.n, log, x);
      ReadNoIs(D.Pipeline(c), D.TwoSlots(c), steps, w, VTile, c.n, log, x);
    }
  }

  /** MAIN. A completed run of the dual-wave pipeline and a row of its wave: O and l are the sums over what the wave's
      reads saw, each tile's probabilities times that same tile's values, whatever the interleaving,
      the DMA latencies and the ballots. */
  method DualwaveRun(e: real -> real, lazy: bool, threshold: real, floor: real, peersBelow: nat -> bool, r: Row, d: Data,
                     c: D.Config, ghost steps: seq<Step>, ghost w: nat, ghost log: seq<Obs>) returns (o: real, m: real, l: real)
    requires IsExp2(e) && threshold >= 0.0 && RowOk(r) && D.ConfigOk(c) && c.t0 % 2 == 0 && c.t0 + c.n <= T.MaxTiles(r.Block())
    requires w < c.waves && Completed(D.Pipeline(c), steps, w, log)
    ensures o == Acc(e, Consumed(r, d, log, c.t0, c.n), m) && l == Mass(e, Consumed(r, d, log, c.t0, c.n), m)
    ensures Consumed(r, d, log, c.t0, c.n) == Span(r, d, c.t0, c.n)
  {
    hide IsExp2, RowOk, Completed, Consumed, Span, Mass, Acc, Paired, DR.ExponentsBounded, DR.MaximaReached, T.MaxTiles;
    DualwavePaired(c, steps, w, log);
    ConsumedIsSpan(r, d, log, c.t0, c.n);
    ghost var ms: seq<real>;
    o, m, l, ms := DR.SegmentRow(e, lazy, threshold, floor, peersBelow, r, d, c.t0, c.n);
  }

  // ------------------------------------------------------------------- FP8, dense and paged

  lemma DensePaired(c: F.Config, steps: seq<Step>, w: nat, log: seq<Obs>)
    requires F.ConfigOk(c) && w < c.waves && Completed(F.Pipeline(c), steps, w, log)
    ensures Paired(log, c.t0, 2 * c.iters)
  {
    hide F.ConfigOk, F.Pipeline, ReadsAll, ReadNo, CanRun, Final;
    F.TilesInOrder(c, steps, w, KTile);
    F.TilesInOrder(c, steps, w, VTile);
    forall x: nat | x < 2 * c.iters ensures ReadNo(log, KTile, x) == c.t0 + x && ReadNo(log, VTile, x) == c.t0 + x {
      ReadNoIs(F.Pipeline(c), F.SixSlots(c), steps, w, KTile, 2 * c.iters, log, x);
      ReadNoIs(F.Pipeline(c), F.SixSlots(c), steps, w, VTile, 2 * c.iters, log, x);
    }
  }

  /** MAIN. The same for the dense FP8 ring: pair p scores and multiplies what reads 2p and 2p+1 saw. */
  method DenseRun(g: FR.Job, c: F.Config, ghost steps: seq<Step>, ghost w: nat, ghost log: seq<Obs>) returns (st: FR.State)
    requires IsExp2(g.e) && RowOk(g.r) && F.ConfigOk(c) && c.t0 % 2 == 0 && c.iters >= 2 && c.t0 + 2 * c.iters <= T.MaxTiles(g.r.Block())
    requires w < c.waves && Completed(F.Pipeline(c), steps, w, log)
    ensures st.m.Fin? && FR.Online8(g.e, g.c, Consumed(g.r, FR.Scaled(g.c, g.d), log, c.t0, 2 * c.iters), st)
    ensures Consumed(g.r, g.d, log, c.t0, 2 * c.iters) == Span(g.r, g.d, c.t0, 2 * c.iters)
  {
    hide IsExp2, RowOk, Completed, Consumed, Span, FR.Online8, Paired, F.ConfigOk, T.MaxTiles;
    DensePaired(c, steps, w, log);
    ConsumedIsSpan(g.r, FR.Scaled(g.c, g.d), log, c.t0, 2 * c.iters);
    ConsumedIsSpan(g.r, g.d, log, c.t0, 2 * c.iters);
    st := FR.DenseSegment(g, c.t0, c.t0 + 2 * c.iters);
  }

  lemma PagedPaired(c: P.Config, steps: seq<Step>, w: nat, log: seq<Obs>)
    requires P.ConfigOk(c) && w < c.waves && Completed(P.Pipeline(c), steps, w, log)
    ensures P.Iters(c) >= 0 && Paired(log, c.shape.t0, 2 * P.Iters(c))
  {
    hide P.Pipeline, ReadsAll, ReadNo, CanRun, Final;
    P.TilesInOrder(c, steps, w, KTile);
    P.TilesInOrder(c, steps, w, VTile);
    forall x: nat | x < 2 * P.Iters(c) ensures ReadNo(log, KTile, x) == c.shape.t0 + x && ReadNo(log, VTile, x) == c.shape.t0 + x {
      ReadNoIs(P.Pipeline(c), P.Layouts(c), steps, w, KTile, 2 * P.Iters(c), log, x);
      ReadNoIs(P.Pipeline(c), P.Layouts(c), steps, w, VTile, 2 * P.Iters(c), log, x);
    }
  }

  lemma PagedTiles(g: FR.Job, c: P.Config)
    requires S.Matches(g, c.shape)
    ensures 2 * P.Iters(c) == T.MaxTiles(g.r.Block())
  {
  }

  /** MAIN. The same for the paged ring: whatever loops its wave and the others take, the output is attention
      over what the wave's reads saw. */
  method PagedRun(g: FR.Job, q: seq<real>, peersSafe: bool, c: P.Config, ghost steps: seq<Step>, ghost w: nat, ghost log: seq<Obs>)
      returns (out: real)
    requires IsExp2(g.e) && RowOk(g.r) && P.ConfigOk(c) && S.Matches(g, c.shape) && w < c.waves && Completed(P.Pipeline(c), steps, w, log)
    ensures P.Iters(c) >= 0 && out == g.c.valueScale * Direct(g.e, Consumed(g.r, FR.Scaled(g.c, g.d), log, 0, 2 * P.Iters(c)))
    ensures out == FR.Attention(g)
  {
    hide IsExp2, RowOk, Completed, Consumed, Span, Paired, Direct, Covers, T.MaxTiles, FR.Scaled, P.Iters, FR.Calls;
    PagedPaired(c, steps, w, log);
    PagedTiles(g, c);
    ghost var n := 2 * P.Iters(c);
    ConsumedIsSpan(g.r, FR.Scaled(g.c, g.d), log, 0, n);
    UnsplitCovers(g.r);
    CoveredDirect(g.e, g.r, FR.Scaled(g.c, g.d), n);
    var whole, _, _ := S.PagedRow(g, c.shape, q, peersSafe);
    out := whole;
  }

  // ----------------------------------------------------------------------------- MLA

  /** Rows that the last tile zero-fills are a region of their own in every tile. */
  predicate TailRow(it: MS.Item, r: nat)
    requires MS.ItemOk(it)
  {
    MS.TileStart(it, MS.NumTiles(it) - 1) + r >= it.kvEnd
  }

  /** The tile that the scores of row r of step t came from: every tile is read twice, for its scores and for
      its values. */
  ghost function ScoreRead(log: seq<Obs>, tail: bool, t: nat): int {
    ReadNo(log, if tail then AuxTile else KTile, 2 * t)
  }

  /** The tile that its values came from: the second read (gfx950), or the transposed copy. */
  ghost function ValueRead(c: M.Config, log: seq<Obs>, tail: bool, t: nat): int {
    if c.gfx950 then ReadNo(log, if tail then AuxTile else KTile, 2 * t + 1) else ReadNo(log, VtStage, t)
  }

  /** Row r of step t, as the reads have it. */
  ghost function FedKey(c: M.Config, h: MR.Head, pages: seq<nat>, it: MS.Item, log: seq<Obs>, t: nat, r: nat): Key
    requires MS.ItemOk(it) && it.kvEnd <= |pages|
  {
    var s, v := ScoreRead(log, TailRow(it, r), t), ValueRead(c, log, TailRow(it, r), t);
    if s < 0 || v < 0 then Key(NegInf, 0.0)
    else Key(MR.RowKey(h, MS.PhysRow(pages, it, s, r)).score, MR.RowKey(h, MS.PhysRow(pages, it, v, r)).value)
  }

  ghost function FedTile(c: M.Config, h: MR.Head, pages: seq<nat>, it: MS.Item, log: seq<Obs>, t: nat): seq<Key>
    requires MS.ItemOk(it) && it.kvEnd <= |pages|
  {
    seq(it.blockN, r requires 0 <= r => FedKey(c, h, pages, it, log, t, r))
  }

  /** The machine and the item describe the same work. */
  predicate SameItem(c: M.Config, it: MS.Item) {
    MS.ItemOk(it) && c.tiles == MS.NumTiles(it) && c.partial == MS.Ragged(it)
  }

  lemma MlaReads(c: M.Config, steps: seq<Step>, w: nat, log: seq<Obs>, kind: Kind, n: nat)
    requires M.ConfigOk(c) && w < c.waves && Completed(M.Pipeline(c), steps, w, log) && M.Buffers(c).slots(kind) > 0
    requires n < if kind == VtStage then c.tiles else 2 * c.tiles
    ensures ReadNo(log, kind, n) == if kind == VtStage then n else n / 2
  {
    hide M.Pipeline, ReadsAll, ReadNo, CanRun, Final;
    M.TilesInOrder(c, steps, w, kind);
    ReadNoIs(M.Pipeline(c), M.Buffers(c), steps, w, kind, if kind == VtStage then c.tiles else 2 * c.tiles, log, n);
  }

  lemma TailRowsArePartial(it: MS.Item, r: nat)
    requires MS.ItemOk(it) && r < it.blockN && TailRow(it, r)
    ensures MS.Ragged(it)
  {
    hide MS.NumTiles, MS.Ragged, MS.TileStart;
    if !MS.Ragged(it) { LastTileEnds(it); }
  }

  lemma LastTileEnds(it: MS.Item)
    requires MS.ItemOk(it) && !MS.Ragged(it)
    ensures MS.TileStart(it, MS.NumTiles(it) - 1) + it.blockN == it.kvEnd
  {
    hide MS.NumTiles;
    MS.Flags(it);
    assert (MS.NumTiles(it) - 1) * it.blockN + it.blockN == MS.NumTiles(it) * it.blockN;
  }

  lemma FedIsFetched(c: M.Config, h: MR.Head, pages: seq<nat>, it: MS.Item, steps: seq<Step>, w: nat, log: seq<Obs>, t: nat)
    requires M.ConfigOk(c) && SameItem(c, it) && it.kvEnd <= |pages| && w < c.waves && Completed(M.Pipeline(c), steps, w, log) && t < c.tiles
    ensures FedTile(c, h, pages, it, log, t) == MR.Fetched(h, pages, it, t)
  {
    hide Completed, ReadNo, TailRow, MS.PhysRow, MS.NumTiles, MS.Ragged, M.Pipeline, MR.RowKey;
    forall r | 0 <= r < it.blockN ensures FedTile(c, h, pages, it, log, t)[r] == MR.Fetched(h, pages, it, t)[r] {
      var tail := TailRow(it, r);
      if tail { TailRowsArePartial(it, r); }
      MlaReads(c, steps, w, log, if tail then AuxTile else KTile, 2 * t);
      if c.gfx950 {
        MlaReads(c, steps, w, log, if tail then AuxTile else KTile, 2 * t + 1);
      } else {
        MlaReads(c, steps, w, log, VtStage, t);
      }
      assert MR.Fetched(h, pages, it, t)[r] == MR.RowKey(h, MS.PhysRow(pages, it, t, r));
      RowKeyWhole(MR.RowKey(h, MS.PhysRow(pages, it, t, r)));
    }
  }

  lemma RowKeyWhole(k: Key)
    ensures Key(k.score, k.value) == k
  {
  }

  /** The live part of the first n tiles, as the reads have them. */
  ghost function ConsumedItem(c: M.Config, h: MR.Head, pages: seq<nat>, it: MS.Item, log: seq<Obs>, n: nat): seq<Key>
    requires MS.ItemOk(it) && it.kvEnd <= |pages|
  {
    if n == 0 then []
    else
      var live := MR.Reached(it, n - 1) - (MS.TileStart(it, n - 1) - it.kvStart);
      ConsumedItem(c, h, pages, it, log, n - 1) + if 0 <= live <= it.blockN then FedTile(c, h, pages, it, log, n - 1)[..live] else []
  }

  lemma LiveIsUnmasked(h: MR.Head, pages: seq<nat>, it: MS.Item, t: nat)
    requires MS.ItemOk(it) && it.kvEnd <= |pages| && t < MS.NumTiles(it)
    ensures var live := MR.Reached(it, t) - (MS.TileStart(it, t) - it.kvStart);
      0 <= live <= it.blockN && |MR.SeenTile(h, pages, it, t)| == it.blockN
      && MR.SeenTile(h, pages, it, t)[..live] == MR.Fetched(h, pages, it, t)[..live]
  {
    hide MS.NumTiles, MR.Reached, MR.ItemKeys, MR.Fetched, MS.Partial;
    MR.TileSplits(h, pages, it, t);
    MR.TileFacts(it, t);
  }

  lemma {:induction false} ConsumedIsItem(c: M.Config, h: MR.Head, pages: seq<nat>, it: MS.Item, steps: seq<Step>, w: nat, log: seq<Obs>, n: nat)
    requires M.ConfigOk(c) && SameItem(c, it) && it.kvEnd <= |pages| && w < c.waves && Completed(M.Pipeline(c), steps, w, log) && 0 < n <= c.tiles
    ensures MR.Reached(it, n - 1) <= MS.KvLen(it)
    ensures ConsumedItem(c, h, pages, it, log, n) == MR.ItemKeys(h, pages, it, MR.Reached(it, n - 1))
    decreases n
  {
    hide Completed, FedTile, MS.NumTiles, MS.Ragged, M.Pipeline, MR.Reached, MR.SeenTile, MR.Fetched, MR.ItemKeys;
    var t := n - 1;
    MR.TileSplits(h, pages, it, t);
    MR.TileFacts(it, t);
    LiveIsUnmasked(h, pages, it, t);
    FedIsFetched(c, h, pages, it, steps, w, log, t);
    if n > 1 {
      ConsumedIsItem(c, h, pages, it, steps, w, log, n - 1);
    }
  }

  /** MAIN. The same for an MLA work item: its output is softmax attention over what its wave's reads of the buffers, and
      on gfx942 of the transposed copies, saw. */
  method MlaRun(h: MR.Head, pages: seq<nat>, it: MS.Item, c: M.Config, ghost steps: seq<Step>, ghost w: nat, ghost log: seq<Obs>)
      returns (out: real)
    requires IsExp2(h.e) && M.ConfigOk(c) && SameItem(c, it) && it.kvEnd <= |pages| && w < c.waves && Completed(M.Pipeline(c), steps, w, log)
    ensures out == Direct(h.e, SS.ScaleKeys(h.log2e, ConsumedItem(c, h, pages, it, log, c.tiles)))
  {
    hide IsExp2, Completed, MS.NumTiles, MS.Ragged, M.Pipeline, MR.Reached, MR.ItemKeys, ConsumedItem, Direct, SS.ScaleKeys, Mass;
    MS.Flags(it);
    MR.TileFacts(it, MS.NumTiles(it) - 1);
    ConsumedIsItem(c, h, pages, it, steps, w, log, c.tiles);
    var whole, _, _ := MR.ItemRow(h, pages, it);
    out := whole;
  }
}
