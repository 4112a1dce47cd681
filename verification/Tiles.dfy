/** Tile bounds of a workgroup: how many 64-key tiles it visits, how the KV splits share them,
    and the block-table window that has to hold a split's page ids. */
module Tiles {
  import opened Arith

  const BLOCK_N: int := 64
  const WINDOW: int := 2048

  function Min(a: int, b: int): int { if a < b then a else b }
  function Max(a: int, b: int): int { if a < b then b else a }
  function CeilDiv(a: int, b: int): int
    requires b > 0
  {
    (a + b - 1) / b
  }
  function EvenUp(a: int): int { (a + 1) / 2 * 2 }

  /** A workgroup's query block: query rows qStart .. qStart+rows-1, keys 0 .. seqlenKv-1, and the
      bottom-right diagonal shift `delta`. */
  datatype Block = Block(causal: bool, qStart: nat, rows: nat, seqlenKv: nat, delta: int)

  function CausalEnd(b: Block): int { Max(0, b.qStart + b.rows + b.delta) }

  function TilesNeeded(b: Block): int {
    var all := CeilDiv(b.seqlenKv, BLOCK_N);
    if b.causal then Min(CeilDiv(CausalEnd(b), BLOCK_N), all) else all
  }

  function MaxTiles(b: Block): int { Max(4, EvenUp(TilesNeeded(b))) }

  function Chunk(m: int, splits: nat): (c: int)
    requires splits > 0
    ensures c >= 6
  {
    Max(6, EvenUp(CeilDiv(m, splits)))
  }

  function SplitT0(m: int, splits: nat, s: nat): int
    requires splits > 0
  {
    if splits == 1 then 0 else s * Chunk(m, splits)
  }

  function SplitEnd(m: int, splits: nat, s: nat): int
    requires splits > 0
  {
    if splits == 1 then m
    else
      var e := Min(SplitT0(m, splits, s) + Chunk(m, splits), m);
      if m - e < 4 then m else e
  }

  predicate Nonempty(m: int, splits: nat, s: nat)
    requires splits > 0
  {
    splits == 1 || SplitT0(m, splits, s) + 4 <= m
  }

  /** The kernel context that computes these bounds step by step. */
  class TileContext {
    const block: Block
    const splits: nat
    const splitIdx: nat
    var numKvTiles: int
    var causalEndRaw: int
    var maxNumTiles: int
    var splitT0: int
    var splitTEnd: int
    var splitNonempty: bool

    constructor (block: Block, splits: nat, splitIdx: nat)
      ensures this.block == block && this.splits == splits && this.splitIdx == splitIdx
    {
      this.block, this.splits, this.splitIdx := block, splits, splitIdx;
    }

    method InitTileBounds()
      requires splits > 0
      modifies this
      ensures numKvTiles == CeilDiv(block.seqlenKv, BLOCK_N)
      ensures maxNumTiles == MaxTiles(block)
      ensures splitT0 == SplitT0(MaxTiles(block), splits, splitIdx) && splitTEnd == SplitEnd(MaxTiles(block), splits, splitIdx)
      ensures splitNonempty == Nonempty(MaxTiles(block), splits, splitIdx)
    {
      numKvTiles := (block.seqlenKv + BLOCK_N - 1) / BLOCK_N;
      maxNumTiles := numKvTiles;
      if block.causal {
        causalEndRaw := block.qStart + block.rows + block.delta;
        var causalEnd := if causalEndRaw > 0 then causalEndRaw else 0;
        var causalNumTiles := (causalEnd + BLOCK_N - 1) / BLOCK_N;
        maxNumTiles := if causalNumTiles < numKvTiles then causalNumTiles else numKvTiles;
      }
      maxNumTiles := (maxNumTiles + 1) / 2 * 2;
      maxNumTiles := if maxNumTiles < 4 then 4 else maxNumTiles;
      InitSplit();
    }

    /** The second half: this workgroup's share of the tiles. */
    method InitSplit()
      requires splits > 0
      modifies this`splitT0, this`splitTEnd, this`splitNonempty
      ensures splitT0 == SplitT0(maxNumTiles, splits, splitIdx) && splitTEnd == SplitEnd(maxNumTiles, splits, splitIdx)
      ensures splitNonempty == Nonempty(maxNumTiles, splits, splitIdx)
    {
      if splits > 1 {
        var chunk := ((maxNumTiles + (splits - 1)) / splits + 1) / 2 * 2;
        chunk := if chunk < 6 then 6 else chunk;
        splitT0 := splitIdx * chunk;
        splitTEnd := splitT0 + chunk;
        splitTEnd := if splitTEnd < maxNumTiles then splitTEnd else maxNumTiles;
        splitTEnd := if maxNumTiles - splitTEnd < 4 then maxNumTiles else splitTEnd;
        splitNonempty := splitT0 + 4 <= maxNumTiles;
      } else {
        splitT0, splitTEnd, splitNonempty := 0, maxNumTiles, true;
      }
    }
  }

  // --------------------------------------------------------------------- tile count

  /** MAIN. The tile count is even and at least 4, and tiles 0 .. MaxTiles-1 reach every key that
      some row of the block may see. */
  lemma TilesCoverVisibleKeys(b: Block, row: nat, key: nat)
    requires row < b.qStart + b.rows && key < b.seqlenKv && (b.causal ==> key <= row + b.delta)
    ensures MaxTiles(b) % 2 == 0 && MaxTiles(b) >= 4
    ensures key / BLOCK_N < MaxTiles(b)
  {
  }

  // ------------------------------------------------------------------------- splits

  predicate TileCount(m: int) { m % 2 == 0 && m >= 4 }

  lemma ChunkBounds(m: int, splits: nat)
    requires TileCount(m) && splits > 0
    ensures Chunk(m, splits) % 2 == 0 && Chunk(m, splits) >= 6 && Chunk(m, splits) * splits >= m
    ensures Chunk(m, splits) > 6 ==> (Chunk(m, splits) - 2) * splits < m
  {
    var c := CeilDiv(m, splits);
    DivBounds(m + splits - 1, splits);
    MulLe(c, Chunk(m, splits), splits);
    if Chunk(m, splits) > 6 {
      MulLe(Chunk(m, splits) - 2, c - 1, splits);
      assert (c - 1) * splits == c * splits - splits;
    }
  }

  /** The starts of the splits are `chunk` apart. */
  lemma StartsApart(m: int, splits: nat, s: nat, s': nat)
    requires TileCount(m) && splits > 1 && s < s'
    ensures SplitT0(m, splits, s) + Chunk(m, splits) <= SplitT0(m, splits, s')
    ensures s' == s + 1 ==> SplitT0(m, splits, s') == SplitT0(m, splits, s) + Chunk(m, splits)
  {
    ChunkBounds(m, splits);
    MulLe(s + 1, s', Chunk(m, splits));
    assert (s + 1) * Chunk(m, splits) == s * Chunk(m, splits) + Chunk(m, splits);
  }

  lemma StartIsEven(m: int, splits: nat, s: nat)
    requires TileCount(m) && splits > 0
    ensures SplitT0(m, splits, s) % 2 == 0 && SplitT0(m, splits, s) >= 0
    ensures splits > 1 && s == 0 ==> SplitT0(m, splits, s) == 0
  {
    hide Chunk;
    ChunkBounds(m, splits);
    EvenProduct(s, Chunk(m, splits));
    MulLe(0, s, Chunk(m, splits));
  }

  /** MAIN. A nonempty split has an even number of tiles, at least 4 and at most chunk + 2. */
  lemma SplitLength(m: int, splits: nat, s: nat)
    requires TileCount(m) && splits > 0 && s < splits && Nonempty(m, splits, s)
    ensures var len := SplitEnd(m, splits, s) - SplitT0(m, splits, s);
      len % 2 == 0 && 4 <= len && (splits > 1 ==> len <= Chunk(m, splits) + 2)
    ensures SplitEnd(m, splits, s) <= m
  {
    hide Chunk, SplitT0;
    if splits == 1 {
      Unsplit(m, s);
    } else {
      ChunkBounds(m, splits);
      StartIsEven(m, splits, s);
    }
  }

  lemma Unsplit(m: int, s: nat)
    ensures SplitT0(m, 1, s) == 0 && SplitEnd(m, 1, s) == m
  {
  }

  /** Which split owns tile `t`. */
  function Owner(m: int, splits: nat, t: nat): int
    requires splits > 0
  {
    if splits == 1 then 0
    else
      var s := t / Chunk(m, splits);
      if s >= 0 && SplitT0(m, splits, s) + 4 <= m then s else s - 1
  }

  lemma ChunkOf(m: int, splits: nat, t: nat)
    requires TileCount(m) && splits > 1 && t < m
    ensures var k := t / Chunk(m, splits);
      0 <= k < splits && SplitT0(m, splits, k) <= t < SplitT0(m, splits, k) + Chunk(m, splits)
  {
    hide Chunk;
    ChunkBounds(m, splits);
    DivBounds(t, Chunk(m, splits));
    assert Chunk(m, splits) * splits == splits * Chunk(m, splits);
    DivBelow(t, Chunk(m, splits), splits);
  }

  /** MAIN. The nonempty splits partition tiles 0 .. m-1: tile t is in the segment of split s
      exactly when s is its owner, which is one of the launched splits. */
  lemma SplitsPartition(m: int, splits: nat, t: nat, s: nat)
    requires TileCount(m) && splits > 0 && t < m && s < splits
    ensures Nonempty(m, splits, s) && SplitT0(m, splits, s) <= t < SplitEnd(m, splits, s) <==> s == Owner(m, splits, t)
    ensures 0 <= Owner(m, splits, t) < splits
  {
    hide Chunk, SplitT0;
    if splits == 1 {
      Unsplit(m, s);
    } else {
      ChunkOf(m, splits, t);
      var k: nat := t / Chunk(m, splits);
      StartIsEven(m, splits, k);
      if SplitT0(m, splits, k) + 4 > m { TailIsAbsorbed(m, splits, k); }
      if s < k {
        StartsApart(m, splits, s, k);
        if s + 1 < k { StartsApart(m, splits, s + 1, k); StartsApart(m, splits, s, s + 1); }
      }
      if k < s { StartsApart(m, splits, k, s); }
    }
  }

  /** A split that would start with fewer than 4 tiles left is covered by the one before it. */
  lemma TailIsAbsorbed(m: int, splits: nat, k: nat)
    requires TileCount(m) && splits > 1 && SplitT0(m, splits, k) < m < SplitT0(m, splits, k) + 4
    ensures k > 0 && SplitEnd(m, splits, k - 1) == m && Nonempty(m, splits, k - 1)
  {
    hide Chunk, SplitT0;
    StartIsEven(m, splits, k);
    if k > 0 {
      StartsApart(m, splits, k - 1, k);
    }
  }

  /** When the empty-split store fires (max_num_tiles < split_t0 + 4). */
  predicate StoresEmpty(m: int, splits: nat, s: nat)
    requires splits > 0
  {
    m < SplitT0(m, splits, s) + 4
  }

  /** MAIN. Of the launched splits exactly those without tiles of their own store an empty partial. */
  lemma EmptyStoreExactlyOnOthers(m: int, splits: nat, s: nat)
    requires TileCount(m) && splits > 1 && s < splits
    ensures StoresEmpty(m, splits, s) <==> !Nonempty(m, splits, s)
    ensures StoresEmpty(m, splits, s) <==> forall t :: 0 <= t < m ==> Owner(m, splits, t) != s
  {
    hide Chunk, SplitT0, Owner;
    if Nonempty(m, splits, s) {
      StartIsEven(m, splits, s);
      SplitLength(m, splits, s);
      SplitsPartition(m, splits, SplitT0(m, splits, s), s);
    } else {
      forall t | 0 <= t < m ensures Owner(m, splits, t) != s {
        SplitsPartition(m, splits, t, s);
      }
    }
  }

  // ------------------------------------------------------------- block-table window

  /** The host accepts a paged launch only if this holds. */
  predicate HostCheck(pages: nat, splits: nat)
    requires splits > 0
  {
    CeilDiv(pages, splits) <= WINDOW
  }

  /** The segment of split `s` fits the window. */
  predicate Fits(m: int, splits: nat, s: nat)
    requires splits > 0
  {
    SplitEnd(m, splits, s) - SplitT0(m, splits, s) <= WINDOW
  }

  /** The one way past the host check: a chunk of exactly 2048 tiles and a tail of 2. */
  predicate Overflows(m: int, splits: nat)
    requires splits > 0
  {
    splits > 1 && Chunk(m, splits) == WINDOW && m % WINDOW == 2
  }

  /** One page per tile: a batch entry no longer than the longest one needs no more tiles than pages. */
  lemma TilesFitPages(b: Block, maxSeqlenKv: nat)
    requires b.seqlenKv <= maxSeqlenKv
    ensures MaxTiles(b) == 4 || MaxTiles(b) <= EvenUp(CeilDiv(maxSeqlenKv, BLOCK_N))
    ensures TileCount(MaxTiles(b))
  {
  }

  lemma ChunkFits(m: int, splits: nat, pages: nat)
    requires TileCount(m) && splits > 0 && HostCheck(pages, splits) && (m == 4 || m <= EvenUp(pages))
    ensures m <= WINDOW * splits && Chunk(m, splits) <= WINDOW
  {
    DivBounds(pages + splits - 1, splits);
    MulLe(CeilDiv(pages, splits), WINDOW, splits);
    assert EvenUp(pages) <= WINDOW * splits;
    ChunkBounds(m, splits);
    if Chunk(m, splits) > WINDOW {
      MulLe(WINDOW, Chunk(m, splits) - 2, splits);
    }
  }

  /** MAIN. After the host check, every active segment fits the block-table window if and only if
      the chunk is not exactly 2048 with 2 tiles left over. */
  lemma WindowHoldsExactlyWhen(m: int, splits: nat, pages: nat)
    requires TileCount(m) && splits > 0 && HostCheck(pages, splits) && (m == 4 || m <= EvenUp(pages))
    ensures (forall s :: 0 <= s < splits && Nonempty(m, splits, s) ==> Fits(m, splits, s)) <==> !Overflows(m, splits)
  {
    hide HostCheck, EvenUp, Chunk, SplitT0, SplitEnd, CeilDiv;
    ChunkFits(m, splits, pages);
    if splits == 1 {
      forall s: nat | s < splits ensures Fits(m, splits, s) { Unsplit(m, s); }
    } else if Overflows(m, splits) {
      var s := (m - 2) / WINDOW - 1;
      OverflowingSplit(m, splits, s);
    } else {
      forall s | 0 <= s < splits && Nonempty(m, splits, s) ensures Fits(m, splits, s) {
        OtherSplitsFit(m, splits, s);
      }
    }
  }

  lemma OverflowingSplit(m: int, splits: nat, s: int)
    requires TileCount(m) && splits > 0 && Overflows(m, splits) && m <= WINDOW * splits && s == (m - 2) / WINDOW - 1
    ensures 0 <= s < splits && Nonempty(m, splits, s) && !Fits(m, splits, s)
  {
    hide Chunk;
    assert m == WINDOW * (s + 1) + 2;
    assert SplitT0(m, splits, s) == s * WINDOW;
  }

  lemma OtherSplitsFit(m: int, splits: nat, s: nat)
    requires TileCount(m) && splits > 1 && !Overflows(m, splits) && Chunk(m, splits) <= WINDOW && s < splits && Nonempty(m, splits, s)
    ensures Fits(m, splits, s)
  {
    hide Chunk;
    SplitLength(m, splits, s);
    StartIsEven(m, splits, s);
    ChunkBounds(m, splits);
    if Chunk(m, splits) == WINDOW {
      assert SplitT0(m, splits, s) == s * WINDOW;
    }
  }

  /** MAIN. With at most 1023 splits the host check is enough. */
  lemma WindowHoldsUpTo1023(m: int, splits: nat, pages: nat)
    requires TileCount(m) && 0 < splits <= 1023 && HostCheck(pages, splits) && (m == 4 || m <= EvenUp(pages))
    ensures forall s :: 0 <= s < splits && Nonempty(m, splits, s) ==> Fits(m, splits, s)
  {
    hide Chunk, Nonempty, Fits;
    WindowHoldsExactlyWhen(m, splits, pages);
    ChunkFits(m, splits, pages);
    ChunkBounds(m, splits);
  }

  /** MAIN. With 1024 splits it is not: a launch with 134086784 keys has 2095106 pages, which pass the check,
      and split 1022 of each of its blocks gets 2050 tiles. */
  lemma WindowFailsAt1024()
    ensures var keys, pages, splits := 64 * (2048 * 1023 + 2), 2048 * 1023 + 2, 1024;
      var b := Block(false, 0, 256, keys, 0); var m := MaxTiles(b);
      && pages == CeilDiv(keys, BLOCK_N) && HostCheck(pages, splits) && m == pages && TileCount(m)
      && Nonempty(m, splits, 1022) && SplitEnd(m, splits, 1022) - SplitT0(m, splits, 1022) == 2050
      && !Fits(m, splits, 1022)
  {
  }
}
