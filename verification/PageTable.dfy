/** Page ids of a paged bf16/f16 workgroup: its segment of the block table is staged in LDS, and
    every K and V load takes its tile's id from there, or from the id carried between iterations. */
module PageTable {
  import opened Tiles

  const BLOCK_SIZE: nat := 512

  /** The id that tile `t` has to use; tiles past the sequence read page 0. */
  function Page(table: seq<int>, numKvTiles: nat, t: nat): int
    requires numKvTiles <= |table|
  {
    if t < numKvTiles then table[t] else 0
  }

  /** The window holds the ids of the segment's tiles, as far as it reaches. */
  predicate Holds(bt: array<int>, table: seq<int>, numKvTiles: nat, t0: nat, count: nat)
    requires numKvTiles <= |table|
    reads bt
  {
    bt.Length == WINDOW && forall l :: 0 <= l < count && l < WINDOW ==> bt[l] == Page(table, numKvTiles, t0 + l)
  }

  /** Every thread stages the entries tid, tid + 512, .. of the segment. */
  method LoadBlockTable(table: seq<int>, numKvTiles: nat, t0: nat, tEnd: nat) returns (bt: array<int>)
    requires numKvTiles <= |table| && t0 <= tEnd
    ensures fresh(bt) && Holds(bt, table, numKvTiles, t0, tEnd - t0)
    ensures forall l :: 0 <= l < tEnd - t0 && l < WINDOW ==> bt[l] == if t0 + l < numKvTiles then table[t0 + l] else 0
  {
    bt := new int[WINDOW];
    var segmentTiles := tEnd - t0;
    for pass := 0 to WINDOW / BLOCK_SIZE
      invariant forall l :: 0 <= l < segmentTiles && l < pass * BLOCK_SIZE ==> bt[l] == Page(table, numKvTiles, t0 + l)
    {
      for tid := 0 to BLOCK_SIZE
        invariant forall l :: 0 <= l < segmentTiles && l < pass * BLOCK_SIZE + tid ==> bt[l] == Page(table, numKvTiles, t0 + l)
      {
        var localTile := tid + pass * BLOCK_SIZE;
        if localTile < segmentTiles {
          var tile := t0 + localTile;
          bt[localTile] := 0;
          if tile < numKvTiles {
            bt[localTile] := table[tile];
          }
        }
      }
    }
  }

  /** A lookup; the precondition is that the tile belongs to the segment and its entry to the window. */
  method LookUp(bt: array<int>, t0: nat, ghost tEnd: nat, t: nat) returns (page: int)
    requires bt.Length == WINDOW && t0 <= t < tEnd && t - t0 < WINDOW
    ensures page == bt[t - t0]
  {
    page := bt[t - t0];
  }

  datatype Load = Load(tile: nat, page: int)

  /** Loads of tiles t0, t0+1, .. in order, each with its own page. */
  predicate RightPages(loads: seq<Load>, table: seq<int>, numKvTiles: nat, t0: nat, count: int)
    requires numKvTiles <= |table|
  {
    |loads| == count && forall x :: 0 <= x < count ==> loads[x] == Load(t0 + x, Page(table, numKvTiles, t0 + x))
  }

  /** The page ids along the pipeline: prologue, loop (which carries the id of the next
      iteration's first V tile) and epilogue. */
  method PipelinePages(bt: array<int>, ghost table: seq<int>, ghost numKvTiles: nat, t0: nat, tEnd: nat)
      returns (k: seq<Load>, v: seq<Load>)
    requires numKvTiles <= |table| && t0 + 4 <= tEnd && (tEnd - t0) % 2 == 0 && tEnd - t0 <= WINDOW
    requires Holds(bt, table, numKvTiles, t0, tEnd - t0)
    ensures RightPages(k, table, numKvTiles, t0, tEnd - t0) && RightPages(v, table, numKvTiles, t0, tEnd - t0)
  {
    var page := LookUp(bt, t0, tEnd, t0);
    k := [Load(t0, page)];
    page := LookUp(bt, t0, tEnd, t0 + 1);
    k := k + [Load(t0 + 1, page)];
    page := LookUp(bt, t0, tEnd, t0);
    v := [Load(t0, page)];
    page := LookUp(bt, t0, tEnd, t0 + 2);
    k := k + [Load(t0 + 2, page)];
    var loopLb := t0 + 3;
    var carried := LookUp(bt, t0, tEnd, loopLb - 2);
    var j := loopLb;
    while j < tEnd - 1
      invariant t0 + 3 <= j <= tEnd - 1 && (j - t0) % 2 == 1
      invariant RightPages(k, table, numKvTiles, t0, j - t0) && RightPages(v, table, numKvTiles, t0, j - t0 - 2)
      invariant carried == Page(table, numKvTiles, j - 2)
    {
      v := v + [Load(j - 2, carried)];
      page := LookUp(bt, t0, tEnd, j);
      k := k + [Load(j, page)];
      page := LookUp(bt, t0, tEnd, j - 1);
      v := v + [Load(j - 1, page)];
      page := LookUp(bt, t0, tEnd, j + 1);
      k := k + [Load(j + 1, page)];
      carried := LookUp(bt, t0, tEnd, j);
      j := j + 2;
    }
    v := v + [Load(tEnd - 3, carried)];
    page := LookUp(bt, t0, tEnd, tEnd - 1);
    k := k + [Load(tEnd - 1, page)];
    page := LookUp(bt, t0, tEnd, tEnd - 2);
    v := v + [Load(tEnd - 2, page)];
    page := LookUp(bt, t0, tEnd, tEnd - 1);
    v := v + [Load(tEnd - 1, page)];
  }

  /** MAIN. A split of a launch that passed the host check loads every K and V tile of its
      segment from its own page, provided the segment fits the window. */
  method SplitPages(b: Block, maxSeqlenKv: nat, splits: nat, s: nat, table: seq<int>) returns (k: seq<Load>, v: seq<Load>)
    requires 0 < splits && s < splits && b.seqlenKv <= maxSeqlenKv && CeilDiv(b.seqlenKv, BLOCK_N) <= |table|
    requires HostCheck(CeilDiv(maxSeqlenKv, BLOCK_N), splits)
    requires Nonempty(MaxTiles(b), splits, s) && !Overflows(MaxTiles(b), splits)
    ensures var m := MaxTiles(b);
      && SplitT0(m, splits, s) >= 0
      && RightPages(k, table, CeilDiv(b.seqlenKv, BLOCK_N), SplitT0(m, splits, s), SplitEnd(m, splits, s) - SplitT0(m, splits, s))
      && RightPages(v, table, CeilDiv(b.seqlenKv, BLOCK_N), SplitT0(m, splits, s), SplitEnd(m, splits, s) - SplitT0(m, splits, s))
    ensures |k| == |v| && forall x :: 0 <= x < |k| ==>
      PageIs(k[x], table, b.seqlenKv, SplitT0(MaxTiles(b), splits, s) + x) && PageIs(v[x], table, b.seqlenKv, SplitT0(MaxTiles(b), splits, s) + x)
  {
    hide RightPages, Holds, Fits, SplitT0, SplitEnd, Nonempty, HostCheck, Overflows;
    var m := MaxTiles(b);
    TilesFitPages(b, maxSeqlenKv);
    SplitLength(m, splits, s);
    StartIsEven(m, splits, s);
    WindowHoldsExactlyWhen(m, splits, CeilDiv(maxSeqlenKv, BLOCK_N));
    FitsMeans(m, splits, s);
    var numKvTiles := CeilDiv(b.seqlenKv, BLOCK_N);
    var bt := LoadBlockTable(table, numKvTiles, SplitT0(m, splits, s), SplitEnd(m, splits, s));
    k, v := PipelinePages(bt, table, numKvTiles, SplitT0(m, splits, s), SplitEnd(m, splits, s));
    PagesAre(b, table, SplitT0(m, splits, s), SplitEnd(m, splits, s) - SplitT0(m, splits, s), k);
    PagesAre(b, table, SplitT0(m, splits, s), SplitEnd(m, splits, s) - SplitT0(m, splits, s), v);
  }

  /** A load of tile t from the block table's entry t, or from page 0 if the tile starts past the last key. */
  predicate PageIs(l: Load, table: seq<int>, seqlenKv: nat, t: int) {
    l.tile == t && l.page == if t * BLOCK_N < seqlenKv && t < |table| then table[t] else 0
  }

  lemma PagesAre(b: Block, table: seq<int>, t0: nat, count: int, loads: seq<Load>)
    requires CeilDiv(b.seqlenKv, BLOCK_N) <= |table| && RightPages(loads, table, CeilDiv(b.seqlenKv, BLOCK_N), t0, count)
    ensures |loads| == count && forall x :: 0 <= x < |loads| ==> PageIs(loads[x], table, b.seqlenKv, t0 + x)
  {
  }

  lemma FitsMeans(m: int, splits: nat, s: nat)
    requires splits > 0 && Fits(m, splits, s)
    ensures SplitEnd(m, splits, s) - SplitT0(m, splits, s) <= WINDOW
  {
  }
}
