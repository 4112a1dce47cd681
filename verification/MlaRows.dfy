/** Which physical KV row each thread of the MLA decode kernel fetches for each tile of one work
    item: rows are resolved two tiles ahead, and whether a tile needs boundary checks is
    decided before it is fetched. */
module MlaRows {
  import opened Arith

  /** Keys kvStart .. kvEnd-1, in tiles of `blockN` rows (64 on gfx950, else 32). */
  datatype Item = Item(kvStart: nat, kvEnd: nat, blockN: nat)

  predicate ItemOk(it: Item) {
    it.kvStart < it.kvEnd && (it.blockN == 32 || it.blockN == 64)
  }

  function KvLen(it: Item): int { it.kvEnd - it.kvStart }

  function NumTiles(it: Item): nat
    requires ItemOk(it)
  {
    (KvLen(it) + it.blockN - 1) / it.blockN
  }

  function TileStart(it: Item, t: int): int { it.kvStart + t * it.blockN }

  predicate Partial(it: Item, t: nat)
    requires ItemOk(it)
  {
    t + 1 == NumTiles(it) && Ragged(it)
  }

  /** The item does not end with a full tile. */
  predicate Ragged(it: Item)
    requires ItemOk(it)
  {
    KvLen(it) % it.blockN != 0
  }

  /** The page-table entry of row `r` of tile `t`, or -1 past the last key. */
  function PhysRow(pages: seq<nat>, it: Item, t: nat, r: nat): int
    requires ItemOk(it) && it.kvEnd <= |pages|
  {
    var key := TileStart(it, t) + r;
    if 0 <= key < it.kvEnd then pages[key] else -1
  }

  /** A fetch of one row: its tile, the buffer it goes to, the resolved row, and whether the
      code that issues it looks for the row -1. */
  datatype Fetch = Fetch(tile: nat, buf: nat, row: int, check: bool)

  /** What the tile loop does for tile `t`: the fetch of its row, the buffer it is scored from,
      and whether its scores are masked against kvEnd. */
  predicate Right(pages: seq<nat>, it: Item, r: nat, t: nat, f: Fetch, read: nat, mask: bool)
    requires ItemOk(it) && it.kvEnd <= |pages|
  {
    f == Fetch(t, t % 2, PhysRow(pages, it, t, r), Partial(it, t)) && read == t % 2 && (mask <==> Partial(it, t))
  }

  /** Reading the page table; the precondition is that only the item's own keys are looked up. */
  method LoadPage(pages: seq<nat>, ghost it: Item, key: int) returns (row: int)
    requires it.kvStart <= key < it.kvEnd <= |pages|
    ensures row == pages[key]
  {
    row := pages[key];
  }

  method GetKvLdRow(pages: seq<nat>, ghost it: Item, r: nat, tileStart: int, tileEnd: int, check: bool) returns (row: int)
    requires it.kvEnd <= |pages| && it.kvStart <= tileStart
    requires if check then tileEnd == it.kvEnd else tileStart + r < it.kvEnd
    ensures row == if tileStart + r < it.kvEnd then pages[tileStart + r] else -1
  {
    if check {
      row := -1;
      if r + tileStart < tileEnd {
        row := LoadPage(pages, it, r + tileStart);
      }
    } else {
      row := LoadPage(pages, it, r + tileStart);
    }
  }

  /** The flags of the kernel in terms of tile numbers. */
  lemma Flags(it: Item)
    requires ItemOk(it)
    ensures NumTiles(it) >= 1 && (NumTiles(it) - 1) * it.blockN < KvLen(it) <= NumTiles(it) * it.blockN
    ensures KvLen(it) > it.blockN <==> NumTiles(it) >= 2
    ensures NumTiles(it) == 1 ==> (Partial(it, 0) <==> KvLen(it) < it.blockN)
    ensures NumTiles(it) >= 2 ==> !Partial(it, 0)
    ensures NumTiles(it) >= 2 ==> (Partial(it, 1) <==> 2 * it.blockN > KvLen(it))
    ensures KvLen(it) % it.blockN == 0 ==> KvLen(it) == NumTiles(it) * it.blockN
  {
    if it.blockN == 32 {
      assert NumTiles(it) == (KvLen(it) + 31) / 32;
    } else {
      assert NumTiles(it) == (KvLen(it) + 63) / 64;
    }
  }

  /** A tile before the last starts and ends inside the item; a tile starts before kvEnd
      exactly when there is such a tile. */
  lemma TileInside(it: Item, t: nat)
    requires ItemOk(it)
    ensures t + 1 < NumTiles(it) ==> TileStart(it, t + 1) < it.kvEnd
    ensures TileStart(it, t) < it.kvEnd <==> t < NumTiles(it)
    ensures TileStart(it, t + 1) == TileStart(it, t) + it.blockN && TileStart(it, t + 2) == TileStart(it, t) + 2 * it.blockN
  {
    Flags(it);
    if it.blockN == 32 {
      assert t * it.blockN == 32 * t;
    } else {
      assert t * it.blockN == 64 * t;
    }
  }

  /** The row of tile `t` in terms of its start, and how the loop knows that a tile is partial. */
  lemma RowOf(pages: seq<nat>, it: Item, t: nat, r: nat)
    requires ItemOk(it) && it.kvEnd <= |pages|
    ensures var key := it.kvStart + t * it.blockN + r;
      PhysRow(pages, it, t, r) == if key < it.kvEnd then pages[key] else -1
    ensures Partial(it, t) <==> t + 1 == NumTiles(it) && Ragged(it)
  {
    if it.blockN == 32 { assert t * it.blockN == 32 * t; } else { assert t * it.blockN == 64 * t; }
  }

  /** Tiles 0 and 1 are resolved before the first scores. */
  method FirstRows(pages: seq<nat>, it: Item, r: nat) returns (row: int, next: int)
    requires ItemOk(it) && it.kvEnd <= |pages| && r < it.blockN
    ensures row == PhysRow(pages, it, 0, r) && next == PhysRow(pages, it, 1, r)
  {
    hide PhysRow, NumTiles, Partial;
    RowOf(pages, it, 0, r);
    RowOf(pages, it, 1, r);
    var bn, kvStart, kvEnd := it.blockN, it.kvStart, it.kvEnd;
    if kvEnd - kvStart < bn {
      row := GetKvLdRow(pages, it, r, kvStart, kvEnd, true);
    } else {
      row := GetKvLdRow(pages, it, r, kvStart, kvStart + bn, false);
    }
    if kvStart + 2 * bn <= kvEnd {
      next := GetKvLdRow(pages, it, r, kvStart + bn, kvStart + 2 * bn, false);
    } else {
      next := GetKvLdRow(pages, it, r, kvStart + bn, kvEnd, true);
    }
  }

  /** While tile `t` is scored, the row of tile t+2 is resolved if that tile has keys. */
  method ResolveAhead(pages: seq<nat>, it: Item, r: nat, t: nat, tileStart: int) returns (nn: int)
    requires ItemOk(it) && it.kvEnd <= |pages| && r < it.blockN && tileStart == TileStart(it, t)
    ensures t + 2 < NumTiles(it) ==> nn == PhysRow(pages, it, t + 2, r)
  {
    hide PhysRow, NumTiles, Partial;
    RowOf(pages, it, t + 2, r);
    TileInside(it, t);
    TileInside(it, t + 2);
    nn := -1;
    if tileStart + 2 * it.blockN < it.kvEnd {
      nn := GetKvLdRow(pages, it, r, tileStart + 2 * it.blockN, it.kvEnd, true);
    }
  }

  /** The tile loop as seen by one thread whose row in each tile is `r`. */
  method WorkItem(pages: seq<nat>, it: Item, r: nat) returns (fetches: seq<Fetch>, sources: seq<nat>, masks: seq<bool>)
    requires ItemOk(it) && it.kvEnd <= |pages| && r < it.blockN
    ensures |fetches| == |sources| == |masks| == NumTiles(it)
    ensures forall t :: 0 <= t < NumTiles(it) ==> Right(pages, it, r, t, fetches[t], sources[t], masks[t])
  {
    hide PhysRow, NumTiles, Partial, Ragged;
    Flags(it);
    RowOf(pages, it, 0, r);
    var bn, kvStart, kvEnd := it.blockN, it.kvStart, it.kvEnd;
    var kvLen := kvEnd - kvStart;
    var numTiles := NumTiles(it);
    var firstTileNeedsBoundary := kvLen < bn;
    var hasMultiTiles := kvLen > bn;
    var lastTilePartial := Ragged(it);
    var row, next := FirstRows(pages, it, r);
    fetches := [Fetch(0, 0, row, firstTileNeedsBoundary)];
    if !hasMultiTiles {
      sources, masks := [0], [firstTileNeedsBoundary];
      return;
    }
    var firstCbn := kvStart + 2 * bn > kvEnd;
    fetches := fetches + [Fetch(1, 1, next, firstCbn)];
    var nn := ResolveAhead(pages, it, r, 0, kvStart);
    sources, masks := [0], [false];
    for tile := 1 to numTiles - 1
      invariant |fetches| == tile + 1 && |sources| == |masks| == tile
      invariant forall t :: 0 <= t <= tile ==> fetches[t] == Fetch(t, t % 2, PhysRow(pages, it, t, r), Partial(it, t))
      invariant forall t :: 0 <= t < tile ==> sources[t] == t % 2 && !masks[t]
      invariant tile + 1 < numTiles ==> nn == PhysRow(pages, it, tile + 1, r)
    {
      RowOf(pages, it, tile + 1, r);
      var tileStart := TileStart(it, tile);
      var isOdd := tile % 2 != 0;
      var curr, other := if isOdd then 1 else 0, if isOdd then 0 else 1;
      var cbn := tile == numTiles - 2 && lastTilePartial;
      fetches := fetches + [Fetch(tile + 1, other, nn, cbn)];
      nn := ResolveAhead(pages, it, r, tile, tileStart);
      sources, masks := sources + [curr], masks + [false];
    }
    RowOf(pages, it, numTiles - 1, r);
    AllFull(it);
    sources, masks := sources + [(numTiles - 1) % 2], masks + [lastTilePartial];
  }

  lemma AllFull(it: Item)
    requires ItemOk(it)
    ensures forall t :: 0 <= t < NumTiles(it) - 1 ==> !Partial(it, t)
  {
  }

  /** MAIN. Code that does not look for the row -1 never gets it: unchecked fetches are of
      existing keys, and the rows that are missing belong to the last tile. */
  lemma UncheckedRowsExist(pages: seq<nat>, it: Item, t: nat, r: nat)
    requires ItemOk(it) && it.kvEnd <= |pages| && t < NumTiles(it) && r < it.blockN
    ensures !Partial(it, t) ==> PhysRow(pages, it, t, r) >= 0
    ensures PhysRow(pages, it, t, r) == -1 <==> TileStart(it, t) + r >= it.kvEnd
    ensures Partial(it, t) ==> PhysRow(pages, it, t, it.blockN - 1) == -1
  {
    Flags(it);
    TileInside(it, t);
    if t + 1 < NumTiles(it) { TileInside(it, t + 1); }
    if it.blockN == 32 { assert t * it.blockN == 32 * t; } else { assert t * it.blockN == 64 * t; }
  }

  /** MAIN. Every key of the item is in exactly one row of one tile. */
  lemma EveryKeyOnce(it: Item, key: nat, t: nat, r: nat)
    requires ItemOk(it) && it.kvStart <= key < it.kvEnd && r < it.blockN
    ensures TileStart(it, t) + r == key <==> t == (key - it.kvStart) / it.blockN && r == (key - it.kvStart) % it.blockN
    ensures (key - it.kvStart) / it.blockN < NumTiles(it)
  {
    Flags(it);
    if it.blockN == 32 { assert t * it.blockN == 32 * t; } else { assert t * it.blockN == 64 * t; }
  }

  // ------------------------------------------------------------------- thread maps

  /** gfx950: two column strips of four warps, two row passes. */
  function Row950(warp: nat, lane: nat, pass: nat): nat {
    (warp % 4) * 4 + (lane / 32) * 16 + (lane % 32) / 8 + pass * 32
  }
  function Col950(warp: nat, lane: nat): nat { (warp / 4) * 32 + (lane % 8) * 4 }

  /** Other architectures: warp w has rows 2w, 2w+1, 2w+16, 2w+17. */
  function Row942(warp: nat, lane: nat): nat { lane / 32 * 16 + (lane / 16) % 2 + warp * 2 }
  function Col942(lane: nat): nat { (lane % 16) * 4 }

  lemma RowDigits(row: nat, wl: nat, a: nat, b: nat, pass: nat)
    requires wl < 4 && a < 2 && b < 4 && pass < 2
    ensures wl * 4 + a * 16 + b + pass * 32 == row <==>
      row < 64 && wl == (row % 16) / 4 && a == (row % 32) / 16 && b == row % 4 && pass == row / 32
  {
  }

  lemma ColDigits(col: nat, warp: nat, lane: nat)
    requires col < 64 && col % 4 == 0 && warp < 8 && lane < 64
    ensures Col950(warp, lane) == col <==> warp / 4 == col / 32 && lane % 8 == (col % 32) / 4
  {
    assert col == 32 * (col / 32) + 4 * ((col % 32) / 4);
  }

  /** MAIN. Every (row, 4-column group) of a 64-column block is fetched by exactly one thread and pass. */
  lemma Map950(row: nat, col: nat, warp: nat, lane: nat, pass: nat)
    requires row < 64 && col < 64 && col % 4 == 0 && warp < 8 && lane < 64 && pass < 2
    ensures Row950(warp, lane, pass) == row && Col950(warp, lane) == col <==>
      && warp == (col / 32) * 4 + (row % 16) / 4
      && lane == ((row % 32) / 16) * 32 + (row % 4) * 8 + (col % 32) / 4
      && pass == row / 32
  {
    hide Col950;
    RowDigits(row, warp % 4, lane / 32, (lane % 32) / 8, pass);
    ColDigits(col, warp, lane);
    var a, b, d := (row % 32) / 16, row % 4, (col % 32) / 4;
    assert lane == 32 * (lane / 32) + 8 * ((lane % 32) / 8) + lane % 8;
    assert warp == 4 * (warp / 4) + warp % 4;
  }

  lemma Map942(row: nat, col: nat, warp: nat, lane: nat)
    requires row < 32 && col < 64 && col % 4 == 0 && warp < 8 && lane < 64
    ensures Row942(warp, lane) == row && Col942(lane) == col <==>
      warp == (row % 16) / 2 && lane / 32 == row / 16 && (lane / 16) % 2 == row % 2 && lane % 16 == col / 4
  {
    assert row == 16 * (row / 16) + 2 * ((row % 16) / 2) + row % 2;
  }

  /** The column of a tile that value `i` of a lane's scores belongs to. */
  function MaskCol(lane: nat, i: nat): nat { lane / 16 * 4 + (i / 4) * 16 + i % 4 }

  /** MAIN. The masked positions are the tile's columns, each once per 16-lane group. */
  lemma MaskColumns(it: Item, col: nat, group: nat, i: nat)
    requires ItemOk(it) && col < it.blockN && group < 4 && i < it.blockN / 4
    ensures MaskCol(16 * group, i) < it.blockN
    ensures MaskCol(16 * group, i) == col <==> group == (col % 16) / 4 && i == (col / 16) * 4 + col % 4
  {
    MaskDigits(col, group, i / 4, i % 4);
    assert i == 4 * (i / 4) + i % 4;
  }

  lemma MaskDigits(col: nat, group: nat, a: nat, b: nat)
    requires group < 4 && b < 4
    ensures group * 4 + a * 16 + b == col <==> group == (col % 16) / 4 && a == col / 16 && b == col % 4
  {
  }
}
