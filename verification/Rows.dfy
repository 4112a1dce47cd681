/** The keys of one query row as the kernels visit them: raw tiles, tiles after masking, and the
    concatenation of the tiles of a segment, which the online forms are measured against. */
module Rows {
  import opened Masks
  import opened Softmax
  import T = Tiles

  /** Logits (already scaled to base 2) and values of the row's keys, by key index. */
  datatype Data = Data(score: nat -> real, value: nat -> real)

  function RawTile(d: Data, t: nat): seq<Key> {
    seq(64, c requires 0 <= c < 64 => Key(Fin(d.score(64 * t + c)), d.value(64 * t + c)))
  }

  /** The row's column of the V tile. */
  function VTile(d: Data, t: nat): (v: seq<real>)
    ensures |v| == 64
  {
    seq(64, c requires 0 <= c < 64 => d.value(64 * t + c))
  }

  lemma VTileIs(r: Row, d: Data, t: nat)
    ensures Values(SeenTile(r, d, t)) == VTile(d, t)
  {
    forall c | 0 <= c < 64 ensures Values(SeenTile(r, d, t))[c] == VTile(d, t)[c] {
      assert SeenTile(r, d, t)[c] == SeenKey(r, d, 64 * t + c);
    }
  }

  function SeenKey(r: Row, d: Data, key: nat): Key {
    Key(if Visible(r, key) then Fin(d.score(key)) else NegInf, d.value(key))
  }

  /** The tile with exactly the keys the row may not see at minus infinity. */
  function SeenTile(r: Row, d: Data, t: nat): seq<Key> {
    seq(64, c requires 0 <= c < 64 => SeenKey(r, d, 64 * t + c))
  }

  /** A mask call on a tile. */
  function MaskCall(r: Row, t: nat, ks: seq<Key>): seq<Key> {
    if Needed(r, t) then seq(|ks|, c requires 0 <= c < |ks| => Key(if Kept(r, 64 * t + c) then ks[c].score else NegInf, ks[c].value))
    else ks
  }

  /** Tiles t0 .. t0+n-1 one after the other. */
  function Span(r: Row, d: Data, t0: nat, n: nat): seq<Key> {
    if n == 0 then [] else Span(r, d, t0, n - 1) + SeenTile(r, d, t0 + n - 1)
  }

  /** All keys of the sequence. */
  function AllKeys(r: Row, d: Data): seq<Key> {
    seq(r.seqlenKv, k requires 0 <= k < r.seqlenKv => SeenKey(r, d, k))
  }

  /** MAIN. The specification's keys, one by one: the key's own logit and value, minus infinity exactly where the
      bottom-right aligned diagonal hides it. */
  lemma AllKeysAre(r: Row, d: Data, k: nat)
    requires RowOk(r) && k < r.seqlenKv
    ensures |AllKeys(r, d)| == r.seqlenKv && AllKeys(r, d)[k].value == d.value(k)
    ensures AllKeys(r, d)[k].score == if r.causal && k + (r.seqlenQ - 1 - r.Q()) >= r.seqlenKv then NegInf else Fin(d.score(k))
  {
  }

  /** Whatever the program point, the masks that are applied there yield the seen tile. */
  lemma MaskedTile(r: Row, d: Data, t0: nat, n: nat, x: nat)
    requires RowOk(r) && t0 % 2 == 0 && n % 2 == 0 && n >= 4 && x < n && t0 + n <= T.MaxTiles(r.Block())
    ensures (if MasksAt(r, PointOf(x, n)) then MaskCall(r, t0 + x, RawTile(d, t0 + x)) else RawTile(d, t0 + x)) == SeenTile(r, d, t0 + x)
  {
    var got := if MasksAt(r, PointOf(x, n)) then MaskCall(r, t0 + x, RawTile(d, t0 + x)) else RawTile(d, t0 + x);
    forall c | 0 <= c < 64 ensures got[c] == SeenTile(r, d, t0 + x)[c] {
      MaskingIsComplete(r, t0, n, x, 64 * (t0 + x) + c);
    }
  }

  /** The first tile of a non-causal segment always has a visible key. */
  lemma FirstTileLive(r: Row, d: Data, t0: nat)
    requires RowOk(r) && !r.causal && t0 + 4 <= T.MaxTiles(r.Block())
    ensures HasLive(SeenTile(r, d, t0))
  {
    assert Visible(r, 64 * t0);
    assert SeenTile(r, d, t0)[0] == SeenKey(r, d, 64 * t0);
    LiveAt(SeenTile(r, d, t0), 0);
  }

  lemma {:induction false} LiveAt(ks: seq<Key>, i: nat)
    requires i < |ks| && ks[i].score.Fin?
    ensures HasLive(ks)
    decreases |ks|
  {
    if i < |ks| - 1 {
      LiveAt(ks[..|ks| - 1], i);
    }
  }

  // ------------------------------------------- the unsplit segment is the whole sequence

  /** Keys from .. from+count-1. */
  function Keys(r: Row, d: Data, from: nat, count: nat): seq<Key> {
    seq(count, k requires 0 <= k < count => SeenKey(r, d, from + k))
  }

  lemma {:induction false} SpanIsKeys(r: Row, d: Data, t0: nat, n: nat)
    ensures Span(r, d, t0, n) == Keys(r, d, 64 * t0, 64 * n)
  {
    if n > 0 {
      SpanIsKeys(r, d, t0, n - 1);
      assert Keys(r, d, 64 * t0, 64 * n) == Keys(r, d, 64 * t0, 64 * (n - 1)) + SeenTile(r, d, t0 + n - 1);
    } else {
      assert Keys(r, d, 64 * t0, 64 * n) == [];
    }
  }

  lemma {:induction false} NoneVisible(r: Row, d: Data, from: nat, count: nat)
    requires forall k :: from <= k < from + count ==> !Visible(r, k)
    ensures !HasLive(Keys(r, d, from, count))
    decreases count
  {
    if count > 0 {
      NoneVisible(r, d, from, count - 1);
      assert Keys(r, d, from, count)[..count - 1] == Keys(r, d, from, count - 1);
      assert !Visible(r, from + count - 1);
      assert Keys(r, d, from, count)[count - 1] == SeenKey(r, d, from + count - 1);
    }
  }

  /** Every key the row may see is among the first `n` tiles. */
  ghost predicate Covers(r: Row, n: nat) {
    forall k: nat :: Visible(r, k) ==> k < 64 * n
  }

  lemma UnsplitCovers(r: Row)
    requires RowOk(r)
    ensures Covers(r, T.MaxTiles(r.Block()))
  {
    forall k: nat | Visible(r, k) ensures k < 64 * T.MaxTiles(r.Block()) {
      T.TilesCoverVisibleKeys(r.Block(), r.Q(), k);
    }
  }

  /** MAIN. Tiles 0 .. n-1 have the mass and the weighted sum of the whole sequence if they cover
      the visible keys. */
  lemma CoveredSums(e: real -> real, r: Row, d: Data, n: nat, m: real)
    requires IsExp2(e) && Covers(r, n)
    ensures Mass(e, Span(r, d, 0, n), m) == Mass(e, AllKeys(r, d), m) && Acc(e, Span(r, d, 0, n), m) == Acc(e, AllKeys(r, d), m)
    ensures HasLive(Span(r, d, 0, n)) == HasLive(AllKeys(r, d))
  {
    hide IsExp2, Mass, Acc, HasLive, Span;
    var a, b := if 64 * n < r.seqlenKv then 64 * n else r.seqlenKv, if 64 * n < r.seqlenKv then r.seqlenKv else 64 * n;
    SpanIsKeys(r, d, 0, n);
    assert AllKeys(r, d) == Keys(r, d, 0, r.seqlenKv);
    assert Keys(r, d, 0, b) == Keys(r, d, 0, a) + Keys(r, d, a, b - a);
    NoneVisible(r, d, a, b - a);
    Concat(e, Keys(r, d, 0, a), Keys(r, d, a, b - a), m);
    MassNonneg(e, Keys(r, d, a, b - a), m);
  }

  lemma CoveredDirect(e: real -> real, r: Row, d: Data, n: nat)
    requires IsExp2(e) && Covers(r, n)
    ensures Direct(e, Span(r, d, 0, n)) == Direct(e, AllKeys(r, d))
  {
    hide IsExp2, Mass, Acc, HasLive, Span, Covers, AllKeys;
    CoveredSums(e, r, d, n, 0.0);
  }
}
