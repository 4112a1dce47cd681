/** The generic kernel's loop for one query row: score a tile, raise the maximum, rescale, add.
    It is the simple form that the pipelined kernels compute the same result as. */
module GenericRow {
  import opened Masks
  import opened Rows
  import opened Softmax

  /** Online state after the keys `done`; the maximum starts at minus infinity. */
  ghost predicate Online(e: real -> real, done: seq<Key>, m: Score, l: real, o: real) {
    if m.NegInf? then done == [] && l == 0.0 && o == 0.0
    else l == Mass(e, done, m.s) && o == Acc(e, done, m.s)
  }

  /** exp2(old - new), where exp2(-inf) is 0. */
  function Corr(e: real -> real, before: Score, after: real): real {
    if before.NegInf? then 0.0 else e(before.s - after)
  }

  lemma Corrected(e: real -> real, done: seq<Key>, m: Score, l: real, o: real, m': real)
    requires IsExp2(e) && Online(e, done, m, l, o)
    ensures l * Corr(e, m, m') == Mass(e, done, m') && o * Corr(e, m, m') == Acc(e, done, m')
  {
    hide IsExp2;
    if m.Fin? {
      Rebased(e, done, m.s, m');
    }
  }

  /** One tile: statistics, rescale, P times V. `floor` is the finite floor of causal rows. */
  method OnlineTile(e: real -> real, ks: seq<Key>, v: seq<real>, floor: Score, m: Score, l: real, o: real, ghost done: seq<Key>)
      returns (m': real, l': real, o': real)
    requires IsExp2(e) && Online(e, done, m, l, o) && v == Values(ks)
    requires floor.Fin? || m.Fin? || HasLive(ks)
    ensures Online(e, done + ks, Fin(m'), l', o') && Fin(m') == Max2(Max2(m, RowMax(ks)), floor)
  {
    hide IsExp2, Mass, Acc, RowMax, HasLive;
    MaxBounds(ks);
    var mNew := Max2(Max2(m, RowMax(ks)), floor);
    m' := mNew.s;
    var corr := Corr(e, m, m');
    var p := Probs(e, ks, m');
    Corrected(e, done, m, l, o, m');
    ProbsSum(e, ks, m');
    Concat(e, done, ks, m');
    l' := corr * l + Sum(p);
    o' := o * corr + Dot(p, v);
  }

  // ---------------------------------------------------------------------- the row

  /** The kernel's query block; the generic kernel's block height is a parameter. */
  datatype Block = Block(start: nat, height: nat)

  predicate Fits(r: Row, b: Block) {
    r.seqlenKv >= 1 && b.start <= r.Q() < b.start + b.height && r.Q() < r.seqlenQ
  }

  function KvUpper(r: Row, b: Block): nat {
    var end := b.start + b.height + r.Delta();
    if r.causal then if end <= 0 then 0 else if end < r.seqlenKv then end else r.seqlenKv else r.seqlenKv
  }

  /** apply_kv_mask: tiles below the block's first diagonal, or before the last key, pass as they are. */
  function KvMask(r: Row, b: Block, t: nat, ks: seq<Key>): seq<Key>
    requires |ks| == 64
  {
    var needed := if r.causal then 64 * t + 63 > b.start + r.Delta() else 64 * (t + 1) > r.seqlenKv;
    if needed then
      seq(64, c requires 0 <= c < 64 =>
        Key(if (if r.causal then 64 * t + c > r.Q() + r.Delta() else 64 * t + c >= r.seqlenKv) then NegInf else ks[c].score, ks[c].value))
    else ks
  }

  lemma KvMaskIsComplete(r: Row, d: Data, b: Block, t: nat)
    requires Fits(r, b)
    ensures KvMask(r, b, t, RawTile(d, t)) == SeenTile(r, d, t)
  {
    forall c | 0 <= c < 64 ensures KvMask(r, b, t, RawTile(d, t))[c] == SeenTile(r, d, t)[c] {
      assert SeenTile(r, d, t)[c] == SeenKey(r, d, 64 * t + c);
      assert RawTile(d, t)[c] == Key(Fin(d.score(64 * t + c)), d.value(64 * t + c));
    }
  }

  lemma UpperCovers(r: Row, b: Block, n: nat)
    requires Fits(r, b) && KvUpper(r, b) <= 64 * n
    ensures Covers(r, n)
  {
  }

  /** MAIN. The simple loop, in blocks of `subtiles` tiles, is softmax attention over exactly the keys
      the row may see; the pipelined rows meet the same specification, so they refine it. */
  method AttentionRow(e: real -> real, floor: real, r: Row, d: Data, b: Block, subtiles: nat) returns (out: real)
    requires IsExp2(e) && Fits(r, b) && subtiles > 0
    ensures out == Direct(e, AllKeys(r, d))
  {
    hide IsExp2, Mass, Acc, Span, SeenTile, RawTile, KvMask, Direct, Covers, HasLive;
    var m: Score, l, o := NegInf, 0.0, 0.0;
    var t := 0;
    EmptyIsOnline(e, r, d);
    while 64 * t < KvUpper(r, b)
      invariant Online(e, Span(r, d, 0, t), m, l, o) && (t > 0 ==> m.Fin?)
      decreases KvUpper(r, b) - 64 * t
    {
      ghost var first := t;
      for sub := 0 to subtiles
        invariant t == first + sub
        invariant Online(e, Span(r, d, 0, t), m, l, o) && (t > 0 ==> m.Fin?)
      {
        KvMaskIsComplete(r, d, b, t);
        VTileIs(r, d, t);
        TileAt(r, d, b, t);
        var mNew: real;
        mNew, l, o := OnlineTile(e, KvMask(r, b, t, RawTile(d, t)), VTile(d, t), if r.causal then Fin(floor) else NegInf, m, l, o, Span(r, d, 0, t));
        m := Fin(mNew);
        t := t + 1;
      }
    }
    UpperCovers(r, b, t);
    CoveredDirect(e, r, d, t);
    out := o * SafeInverse(l);
    if m.Fin? {
      Normalised(e, Span(r, d, 0, t), m.s, 1.0, l, o);
    } else {
      NothingDone(e, r, d);
    }
  }

  lemma EmptyIsOnline(e: real -> real, r: Row, d: Data)
    ensures Online(e, Span(r, d, 0, 0), NegInf, 0.0, 0.0)
  {
  }

  lemma NothingDone(e: real -> real, r: Row, d: Data)
    ensures Direct(e, Span(r, d, 0, 0)) == 0.0
  {
  }

  lemma TileAt(r: Row, d: Data, b: Block, t: nat)
    requires Fits(r, b)
    ensures Span(r, d, 0, t + 1) == Span(r, d, 0, t) + SeenTile(r, d, t) && |RawTile(d, t)| == 64
    ensures !r.causal && t == 0 ==> HasLive(SeenTile(r, d, t))
  {
    if !r.causal && t == 0 {
      assert Visible(r, 0);
      assert SeenTile(r, d, 0)[0] == SeenKey(r, d, 0);
      LiveAt(SeenTile(r, d, 0), 0);
    }
  }
}
