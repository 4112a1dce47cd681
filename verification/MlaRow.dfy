/** The MLA decode kernel's softmax for one query head and one output column of a work item: tiles of
    physical KV rows, each with its own maximum, output and sum; the last tile normalises. */
module MlaRow {
  import opened MlaRows
  import opened ScaledSoftmax
  import opened Softmax

  /** Scaled logit and value of each physical KV row, for this head and column. `log2e` turns
      natural exponents into base-2 ones. */
  datatype Head = Head(e: real -> real, log2e: real, score: int -> real, value: int -> real)

  datatype State = State(m: real, l: real, o: real)

  /** What is in LDS for a fetched row: rows past the end were filled with zeros. */
  function RowKey(h: Head, row: int): Key {
    if row < 0 then Key(Fin(0.0), 0.0) else Key(Fin(h.score(row)), h.value(row))
  }

  /** A tile as fetched: row r of tile t. */
  function Fetched(h: Head, pages: seq<nat>, it: Item, t: nat): (ks: seq<Key>)
    requires ItemOk(it) && it.kvEnd <= |pages|
    ensures |ks| == it.blockN
  {
    seq(it.blockN, r requires 0 <= r => RowKey(h, PhysRow(pages, it, t, r)))
  }

  /** _softmax_scale_p: with the check, positions from kvEnd on are minus infinity. */
  function Masked(it: Item, t: nat, check: bool, ks: seq<Key>): (masked: seq<Key>)
    ensures |masked| == |ks|
  {
    if check then seq(|ks|, i requires 0 <= i < |ks| => Key(if TileStart(it, t) + i >= it.kvEnd then NegInf else ks[i].score, ks[i].value))
    else ks
  }

  /** The item's keys, in logical order. */
  function ItemKeys(h: Head, pages: seq<nat>, it: Item, upto: nat): (ks: seq<Key>)
    requires it.kvStart + upto <= |pages|
    ensures |ks| == upto
  {
    seq(upto, k requires 0 <= k < upto => Key(Fin(h.score(pages[it.kvStart + k])), h.value(pages[it.kvStart + k])))
  }

  // --------------------------------------------------------------------- one tile

  /** _softmax and the product for the first tile: no rescale, C = 0. */
  method FirstTile(h: Head, ks: seq<Key>, v: seq<real>) returns (st: State)
    requires IsExp2(h.e) && HasLive(ks) && v == Values(ks)
    ensures Sums(h.e, 1.0, ScaleKeys(h.log2e, ks), Mul(h.log2e, st.m), st.l, st.o) && Fin(st.m) == RowMax(ks)
  {
    hide IsExp2, HasLive, Sums, Sum, Dot, ScaledProbs, Mass, Acc, Mul, ScaleKeys;
    MaxBounds(ks);
    var m := RowMax(ks).s;
    var p := ScaledProbs(h.e, h.log2e, 0.0, ks, m);
    SumsOfTile(h, ks, m);
    st := State(m, Sum(p), Dot(p, v));
  }

  lemma SumsOfTile(h: Head, ks: seq<Key>, m: real)
    requires IsExp2(h.e)
    ensures var p := ScaledProbs(h.e, h.log2e, 0.0, ks, m);
      |p| == |Values(ks)| && Sums(h.e, 1.0, ScaleKeys(h.log2e, ks), Mul(h.log2e, m), Sum(p), Dot(p, Values(ks)))
  {
    hide Mass, Acc, Mul, ScaleKeys, Sum, Dot;
    ScaledSums(h.e, h.log2e, 0.0, ks, m);
  }

  /** A later tile: the sums so far are rescaled to the new maximum. */
  method NextTile(h: Head, ks: seq<Key>, v: seq<real>, st: State, ghost done: seq<Key>) returns (st': State)
    requires IsExp2(h.e) && HasLive(ks) && v == Values(ks) && Sums(h.e, 1.0, done, Mul(h.log2e, st.m), st.l, st.o)
    ensures Sums(h.e, 1.0, done + ScaleKeys(h.log2e, ks), Mul(h.log2e, st'.m), st'.l, st'.o) && Fin(st'.m) == Max2(RowMax(ks), Fin(st.m))
  {
    hide IsExp2, HasLive, Sums, Sum, Dot, ScaledProbs, Mass, Acc, Mul, ScaleKeys;
    MaxBounds(ks);
    var m := Max2(RowMax(ks), Fin(st.m)).s;
    var rescale := h.e(Mul(h.log2e, st.m - m));
    var p := ScaledProbs(h.e, h.log2e, 0.0, ks, m);
    ScaledDiff(h.log2e, st.m, m);
    SumsMoved(h.e, 1.0, done, Mul(h.log2e, st.m), Mul(h.log2e, m), st.l, st.o, rescale);
    SumsOfTile(h, ks, m);
    SumsAdd(h.e, 1.0, done, ScaleKeys(h.log2e, ks), Mul(h.log2e, m), Mul(st.l, rescale), Mul(st.o, rescale), Sum(p), Dot(p, v));
    st' := State(m, Mul(st.l, rescale) + Sum(p), Mul(st.o, rescale) + Dot(p, v));
  }

  lemma SumsAdd(e: real -> real, f: real, a: seq<Key>, b: seq<Key>, m: real, la: real, oa: real, lb: real, ob: real)
    requires Sums(e, f, a, m, la, oa) && Sums(e, f, b, m, lb, ob)
    ensures Sums(e, f, a + b, m, la + lb, oa + ob)
  {
    hide Mass, Acc, Mul;
    SumsJoined(e, f, a, b, m, la, oa);
  }

  // ---------------------------------------------------------------- tiles and the item

  /** Keys of the item before tile t ends. */
  function Reached(it: Item, t: nat): nat
    requires ItemOk(it)
  {
    if (t + 1) * it.blockN <= KvLen(it) then (t + 1) * it.blockN else KvLen(it)
  }

  function SeenTile(h: Head, pages: seq<nat>, it: Item, t: nat): seq<Key>
    requires ItemOk(it) && it.kvEnd <= |pages| && t < NumTiles(it)
  {
    Masked(it, t, Partial(it, t), Fetched(h, pages, it, t))
  }

  lemma TileFacts(it: Item, t: nat)
    requires ItemOk(it) && t < NumTiles(it)
    ensures TileStart(it, t) < it.kvEnd && TileStart(it, t) >= it.kvStart
    ensures !Partial(it, t) ==> TileStart(it, t) + it.blockN <= it.kvEnd
    ensures Reached(it, t) == if Partial(it, t) then KvLen(it) else TileStart(it, t) + it.blockN - it.kvStart
    ensures TileStart(it, t) - it.kvStart == if t == 0 then 0 else Reached(it, t - 1)
    ensures t + 1 == NumTiles(it) ==> Reached(it, t) == KvLen(it)
  {
    Flags(it);
    TileInside(it, t);
    if t > 0 { TileInside(it, t - 1); }
    if it.blockN == 32 { FullEnd(it, t, 32); } else { FullEnd(it, t, 64); }
  }

  lemma FullEnd(it: Item, t: nat, bn: nat)
    requires ItemOk(it) && t < NumTiles(it) && it.blockN == bn && (bn == 32 || bn == 64)
    ensures t * it.blockN >= 0 && (t + 1) * it.blockN == t * it.blockN + bn
    ensures Partial(it, t) <==> (t + 1) * it.blockN > KvLen(it)
    ensures t + 1 == NumTiles(it) ==> (t + 1) * it.blockN >= KvLen(it)
  {
    assert t * it.blockN == t * bn && (t + 1) * it.blockN == (t + 1) * bn;
  }

  /** The seen tile holds the item's keys of its range and, if partial, dead positions after them. */
  lemma SeenTileIs(h: Head, pages: seq<nat>, it: Item, t: nat, i: nat)
    requires ItemOk(it) && it.kvEnd <= |pages| && t < NumTiles(it) && i < it.blockN
    ensures var k := TileStart(it, t) + i;
      if k < it.kvEnd then k >= 0 && SeenTile(h, pages, it, t)[i] == Key(Fin(h.score(pages[k])), h.value(pages[k]))
      else SeenTile(h, pages, it, t)[i].score == NegInf
  {
    hide NumTiles;
    TileFacts(it, t);
    RowOf(pages, it, t, i);
    assert Fetched(h, pages, it, t)[i] == RowKey(h, PhysRow(pages, it, t, i));
  }

  /** Live part and dead part of a tile. */
  lemma TileSplits(h: Head, pages: seq<nat>, it: Item, t: nat)
    requires ItemOk(it) && it.kvEnd <= |pages| && t < NumTiles(it)
    ensures var from := TileStart(it, t) - it.kvStart; var n := Reached(it, t) - from; var tile := SeenTile(h, pages, it, t);
      && 0 < n <= |tile| == it.blockN && from >= 0 && Reached(it, t) <= KvLen(it)
      && ItemKeys(h, pages, it, Reached(it, t)) == ItemKeys(h, pages, it, from) + tile[..n]
      && (forall i :: n <= i < |tile| ==> tile[i].score == NegInf)
      && tile[0].score.Fin?
  {
    hide NumTiles, Partial, SeenTile;
    TileFacts(it, t);
    SeenSize(h, pages, it, t);
    var from, tile := TileStart(it, t) - it.kvStart, SeenTile(h, pages, it, t);
    var n := Reached(it, t) - from;
    forall i | 0 <= i < |tile| ensures (i >= n ==> tile[i].score == NegInf)
        && (i < n ==> tile[i] == Key(Fin(h.score(pages[it.kvStart + (from + i)])), h.value(pages[it.kvStart + (from + i)]))) {
      SeenTileIs(h, pages, it, t, i);
    }
  }

  lemma SeenSize(h: Head, pages: seq<nat>, it: Item, t: nat)
    requires ItemOk(it) && it.kvEnd <= |pages| && t < NumTiles(it)
    ensures |SeenTile(h, pages, it, t)| == it.blockN
  {
  }

  lemma {:induction false} LiveFirst(ks: seq<Key>)
    requires ks != [] && ks[0].score.Fin?
    ensures HasLive(ks)
    decreases |ks|
  {
    if |ks| > 1 {
      LiveFirst(ks[..|ks| - 1]);
    }
  }

  lemma {:induction false} DeadKeys(ks: seq<Key>)
    requires forall i :: 0 <= i < |ks| ==> ks[i].score == NegInf
    ensures !HasLive(ks)
    decreases |ks|
  {
    if ks != [] {
      DeadKeys(ks[..|ks| - 1]);
    }
  }

  lemma ScaledSlices(x: real, a: seq<Key>, b: seq<Key>)
    ensures ScaleKeys(x, a + b) == ScaleKeys(x, a) + ScaleKeys(x, b)
  {
  }

  /** Dead keys at the end change no sum. */
  lemma SumsOfLive(h: Head, before: seq<Key>, tile: seq<Key>, n: nat, m: real, l: real, o: real)
    requires IsExp2(h.e) && n <= |tile| && forall i :: n <= i < |tile| ==> tile[i].score == NegInf
    requires Sums(h.e, 1.0, ScaleKeys(h.log2e, before) + ScaleKeys(h.log2e, tile), m, l, o)
    ensures Sums(h.e, 1.0, ScaleKeys(h.log2e, before + tile[..n]), m, l, o)
  {
    hide IsExp2, Mass, Acc, HasLive, Mul;
    var x := h.log2e;
    assert tile == tile[..n] + tile[n..];
    assert before + tile == (before + tile[..n]) + tile[n..];
    ScaledSlices(x, before, tile);
    ScaledSlices(x, before + tile[..n], tile[n..]);
    DeadKeys(ScaleKeys(x, tile[n..]));
    MassNonneg(h.e, ScaleKeys(x, tile[n..]), m);
    Concat(h.e, ScaleKeys(x, before + tile[..n]), ScaleKeys(x, tile[n..]), m);
  }

  /** .. and no maximum. */
  lemma MaxOfLive(before: seq<Key>, tile: seq<Key>, n: nat)
    requires n <= |tile| && forall i :: n <= i < |tile| ==> tile[i].score == NegInf
    ensures RowMax(before + tile[..n]) == Max2(RowMax(before), RowMax(tile))
  {
    hide RowMax;
    assert tile == tile[..n] + tile[n..];
    MaxConcat(tile[..n], tile[n..]);
    MaxConcat(before, tile[..n]);
    DeadKeys(tile[n..]);
    MaxBounds(tile[n..]);
  }

  lemma NoMax()
    ensures RowMax([]) == NegInf
  {
  }

  /** The state after tile t: exact sums over the keys reached, and their maximum. */
  ghost predicate After(h: Head, pages: seq<nat>, it: Item, t: nat, st: State)
    requires ItemOk(it) && it.kvEnd <= |pages| && t < NumTiles(it)
  {
    Reached(it, t) <= KvLen(it) && Fin(st.m) == RowMax(ItemKeys(h, pages, it, Reached(it, t))) &&
    Sums(h.e, 1.0, ScaleKeys(h.log2e, ItemKeys(h, pages, it, Reached(it, t))), Mul(h.log2e, st.m), st.l, st.o)
  }

  /** Scores, softmax and product of tile t, with the flag the tile loop passes. */
  method ProcessTile(h: Head, pages: seq<nat>, it: Item, t: nat, check: bool, st: State) returns (st': State)
    requires IsExp2(h.e) && ItemOk(it) && it.kvEnd <= |pages| && t < NumTiles(it) && (check <==> Partial(it, t))
    requires t > 0 ==> After(h, pages, it, t - 1, st)
    ensures After(h, pages, it, t, st')
    ensures Fin(st'.m) == if t == 0 then RowMax(SeenTile(h, pages, it, t)) else Max2(RowMax(SeenTile(h, pages, it, t)), Fin(st.m))
  {
    hide IsExp2, RowMax, HasLive, Sums, Mul, ScaleKeys, NumTiles, Partial, Masked, Fetched, Reached, ItemKeys;
    var ks := Masked(it, t, check, Fetched(h, pages, it, t));
    TileFacts(it, t);
    TileSplits(h, pages, it, t);
    LiveFirst(ks);
    ghost var from := TileStart(it, t) - it.kvStart;
    ghost var before := ItemKeys(h, pages, it, from);
    if t == 0 {
      st' := FirstTile(h, ks, Values(ks));
      NoneBefore(h, before, ks);
    } else {
      st' := NextTile(h, ks, Values(ks), st, ScaleKeys(h.log2e, before));
    }
    NoMax();
    MaxOfLive(before, ks, Reached(it, t) - from);
    SumsOfLive(h, before, ks, Reached(it, t) - from, Mul(h.log2e, st'.m), st'.l, st'.o);
  }

  lemma NoneBefore(h: Head, before: seq<Key>, ks: seq<Key>)
    requires before == []
    ensures ScaleKeys(h.log2e, before) + ScaleKeys(h.log2e, ks) == ScaleKeys(h.log2e, ks)
  {
  }

  /** MAIN. For every length of the item, from a single partial tile to many, each key contributes once:
      the output is softmax attention over exactly the keys kvStart .. kvEnd-1 of the page table, and
      m and l are its log-sum-exp. */
  method ItemRow(h: Head, pages: seq<nat>, it: Item) returns (out: real, m: real, l: real)
    requires IsExp2(h.e) && ItemOk(it) && it.kvEnd <= |pages|
    ensures out == Direct(h.e, ScaleKeys(h.log2e, ItemKeys(h, pages, it, KvLen(it))))
    ensures Fin(m) == RowMax(ItemKeys(h, pages, it, KvLen(it)))
    ensures l > 0.0 && l == Mass(h.e, ScaleKeys(h.log2e, ItemKeys(h, pages, it, KvLen(it))), Mul(h.log2e, m))
  {
    hide IsExp2, After, NumTiles, Partial, Ragged, Direct, Mass, RowMax, ScaleKeys, Mul, ItemKeys;
    Flags(it);
    RowOf(pages, it, 0, 0);
    var numTiles := NumTiles(it);
    var st := State(0.0, 0.0, 0.0);
    if KvLen(it) <= it.blockN {
      st := ProcessTile(h, pages, it, 0, KvLen(it) < it.blockN, st);
    } else {
      AllFull(it);
      st := ProcessTile(h, pages, it, 0, false, st);
      for tile := 1 to numTiles - 1
        invariant After(h, pages, it, tile - 1, st)
      {
        st := ProcessTile(h, pages, it, tile, false, st);
      }
      RowOf(pages, it, numTiles - 1, 0);
      st := ProcessTile(h, pages, it, numTiles - 1, Ragged(it), st);
    }
    Finished(h, pages, it, st);
    out, m, l := st.o * (1.0 / st.l), st.m, st.l;
  }

  lemma Finished(h: Head, pages: seq<nat>, it: Item, st: State)
    requires IsExp2(h.e) && ItemOk(it) && it.kvEnd <= |pages| && After(h, pages, it, NumTiles(it) - 1, st)
    ensures var ks := ScaleKeys(h.log2e, ItemKeys(h, pages, it, KvLen(it)));
      Fin(st.m) == RowMax(ItemKeys(h, pages, it, KvLen(it))) && st.l > 0.0 && st.l == Mass(h.e, ks, Mul(h.log2e, st.m)) && st.o * (1.0 / st.l) == Direct(h.e, ks)
  {
    hide IsExp2, Mass, Acc, Direct, RowMax, NumTiles;
    Flags(it);
    TileFacts(it, NumTiles(it) - 1);
    var keys := ItemKeys(h, pages, it, KvLen(it));
    var ks := ScaleKeys(h.log2e, keys);
    assert ks[0].score.Fin?;
    LiveFirst(ks);
    MassNonneg(h.e, ks, Mul(h.log2e, st.m));
    Normalised(h.e, ks, Mul(h.log2e, st.m), 1.0, st.l, st.o);
  }
}
