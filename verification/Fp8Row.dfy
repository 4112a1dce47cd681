/** The FP8 kernels' online softmax for one query row: raw logits are scaled when the maximum is
    subtracted, probabilities carry a power-of-two headroom factor, and two tiles share one
    maximum. The dense loop, and the paged loops with their sealed fast path. */
module Fp8Row {
  import opened Masks
  import opened Rows
  import opened ScaledSoftmax
  import opened Softmax
  import L = PagedLoops
  import T = Tiles

  /** `h448` is log2 of the largest e4m3 value, `floor` the finite floor of causal rows. */
  datatype Params = Params(lazy: bool, threshold: real, scale: real, h448: real, floor: real, valueScale: real)

  /** One row of one launch. `peersBelow(j)` is the ballot of the wave's other lanes at pair j. */
  datatype Job = Job(e: real -> real, c: Params, r: Row, d: Data, peersBelow: int -> bool)

  /** What the pair loop carries. */
  datatype State = State(m: Score, l: real, o: real)

  const START := State(NegInf, 0.0, 0.0)

  // ---------------------------------------------------------------- the pair iteration

  /** The addend of the exponent. */
  function Bias(c: Params): real {
    var headroom := if c.lazy then c.h448 - c.threshold else c.h448;
    if headroom > 0.0 then headroom else 0.0
  }

  /** Raw logits of tile t of the pair that starts at tile j, after the masks of that pair: causal
      masks under one branch for the pair, padding masks tile by tile. */
  function Masked(r: Row, d: Data, j: nat, doMask: bool, t: nat): (ks: seq<Key>)
    ensures |ks| == 64
  {
    if !r.causal then MaskCall(r, t, RawTile(d, t))
    else if doMask && r.WaveStart() + r.Delta() < 64 * (j + 2) then
      seq(64, c requires 0 <= c < 64 => Key(if 64 * t + c > r.Q() + r.Delta() then NegInf else RawTile(d, t)[c].score, RawTile(d, t)[c].value))
    else RawTile(d, t)
  }

  function PairMax(c: Params, r: Row, d: Data, j: nat, doMask: bool): Score {
    var m := Max2(RowMax(Masked(r, d, j, doMask, j)), RowMax(Masked(r, d, j, doMask, j + 1)));
    if r.causal then Max2(m, Fin(c.floor)) else m
  }

  /** rescale_from_tile_max: exp2((m - m') * scale), 0 from minus infinity. */
  function Corr8(e: real -> real, c: Params, m: Score, m': Score): real {
    if m.NegInf? || m'.NegInf? then 0.0 else e(Mul(c.scale, m.s - m'.s))
  }

  /** lazy_correct_o's test for one lane. */
  predicate Below(c: Params, m: Score, tileMax: Score) {
    m.Fin? && (tileMax.NegInf? || Mul(c.scale, tileMax.s - m.s) <= c.threshold)
  }

  function CorrectO(e: real -> real, c: Params, peersBelow: bool, st: State, tileMax: Score): State {
    if c.lazy && peersBelow && Below(c, st.m, tileMax) then st
    else
      var m' := Max2(st.m, tileMax);
      State(m', Mul(st.l, Corr8(e, c, st.m, m')), Mul(st.o, Corr8(e, c, st.m, m')))
  }

  /** Probabilities, row sum and product of one tile. */
  function Subtile(e: real -> real, c: Params, ks: seq<Key>, v: seq<real>, st: State): State
    requires |ks| == |v|
  {
    if st.m.NegInf? then st
    else State(st.m, st.l + Sum(ScaledProbs(e, c.scale, Bias(c), ks, st.m.s)), st.o + Dot(ScaledProbs(e, c.scale, Bias(c), ks, st.m.s), v))
  }

  /** The maximum and the correction before a pair's probabilities. */
  function Prepared(g: Job, k: L.Call, st: State): State
    requires k.j >= 0
  {
    var tileMax := PairMax(g.c, g.r, g.d, k.j, k.doMask);
    if k.init then State(tileMax, st.l, st.o)
    else if k.skipMax then st
    else CorrectO(g.e, g.c, g.peersBelow(k.j), st, tileMax)
  }

  function Iterate(g: Job, k: L.Call, st: State): State
    requires k.j >= 0
  {
    var st1 := Subtile(g.e, g.c, Masked(g.r, g.d, k.j, k.doMask, k.j), VTile(g.d, k.j), Prepared(g, k, st));
    Subtile(g.e, g.c, Masked(g.r, g.d, k.j, k.doMask, k.j + 1), VTile(g.d, k.j + 1), st1)
  }

  predicate Calls(calls: seq<L.Call>) { forall i :: 0 <= i < |calls| ==> calls[i].j >= 0 }

  function Run(g: Job, calls: seq<L.Call>): State
    requires Calls(calls)
  {
    if calls == [] then START else Iterate(g, calls[|calls| - 1], Run(g, calls[..|calls| - 1]))
  }

  // ---------------------------------------------------- raw logits against scaled ones

  /** The row's keys with logits in base-2 units. */
  function Scaled(c: Params, d: Data): Data {
    Data((k: nat) => Mul(c.scale, d.score(k)), d.value)
  }

  lemma ScaledTile(c: Params, r: Row, d: Data, t: nat)
    ensures SeenTile(r, Scaled(c, d), t) == ScaleKeys(c.scale, SeenTile(r, d, t))
  {
    var a, b := SeenTile(r, Scaled(c, d), t), SeenTile(r, d, t);
    forall i | 0 <= i < 64 ensures a[i] == ScaleKeys(c.scale, b)[i] {
      assert b[i] == SeenKey(r, d, 64 * t + i) && a[i] == SeenKey(r, Scaled(c, d), 64 * t + i);
      assert ScaleKeys(c.scale, b)[i] == Key(ScaleScore(c.scale, b[i].score), b[i].value);
    }
  }

  // ------------------------------------------------------------------ what a run keeps

  /** State after the (scaled) keys `done`: the factor 2^bias is on both sums. */
  ghost predicate Online8(e: real -> real, c: Params, done: seq<Key>, st: State) {
    if st.m.NegInf? then done == [] && st == START
    else Sums(e, e(Bias(c)), done, Mul(c.scale, st.m.s), st.l, st.o)
  }

  /** MAIN. The correction's new maximum is the old one if the lazy test passes on all lanes, and otherwise the larger
      of the old one and the pair's, never anything above. */
  lemma CorrectedMax(e: real -> real, c: Params, peersBelow: bool, st: State, tileMax: Score)
    requires st.m.Fin? || tileMax.Fin?
    ensures var m' := CorrectO(e, c, peersBelow, st, tileMax).m;
      m'.Fin? && (m' == st.m || m' == tileMax) && (!(c.lazy && peersBelow && Below(c, st.m, tileMax)) ==> Le(st.m, m') && Le(tileMax, m'))
  {
  }

  /** A pair's maximum is the floor of causal rows or a score of the pair. */
  lemma PairMaxAttained(g: Job, j: nat, doMask: bool) returns (t: nat, i: nat)
    requires PairMax(g.c, g.r, g.d, j, doMask).Fin?
    ensures j <= t < j + 2 && i < 64
    ensures PairMax(g.c, g.r, g.d, j, doMask) == Masked(g.r, g.d, j, doMask, t)[i].score
      || (g.r.causal && PairMax(g.c, g.r, g.d, j, doMask) == Fin(g.c.floor))
  {
    hide Masked, RowMax, HasLive;
    var a, b := Masked(g.r, g.d, j, doMask, j), Masked(g.r, g.d, j, doMask, j + 1);
    MaxBounds(a);
    MaxBounds(b);
    t, i := j, 0;
    if RowMax(a).Fin? && PairMax(g.c, g.r, g.d, j, doMask) == RowMax(a) {
      i := MaxAttained(a);
    } else if RowMax(b).Fin? {
      t := j + 1;
      i := MaxAttained(b);
    }
  }

  lemma CorrectKeeps(e: real -> real, c: Params, peersBelow: bool, st: State, tileMax: Score, done: seq<Key>)
    requires IsExp2(e) && Online8(e, c, done, st) && (st.m.Fin? || tileMax.Fin?)
    ensures Online8(e, c, done, CorrectO(e, c, peersBelow, st, tileMax)) && CorrectO(e, c, peersBelow, st, tileMax).m.Fin?
  {
    hide IsExp2, Sums, Bias, Mul;
    var m' := Max2(st.m, tileMax);
    if st.m.Fin? {
      ScaledDiff(c.scale, st.m.s, m'.s);
      SumsMoved(e, e(Bias(c)), done, Mul(c.scale, st.m.s), Mul(c.scale, m'.s), st.l, st.o, e(Mul(c.scale, st.m.s - m'.s)));
    } else {
      MulZero(Corr8(e, c, st.m, m'));
      NothingSummed(e, e(Bias(c)), Mul(c.scale, m'.s));
    }
  }

  lemma SubtileKeeps(e: real -> real, c: Params, ks: seq<Key>, v: seq<real>, st: State, done: seq<Key>)
    requires IsExp2(e) && Online8(e, c, done, st) && st.m.Fin? && v == Values(ks)
    ensures Online8(e, c, done + ScaleKeys(c.scale, ks), Subtile(e, c, ks, v, st)) && Subtile(e, c, ks, v, st).m == st.m
  {
    hide IsExp2, Sums, Bias, ScaledProbs, Sum, Dot, Mass, Acc, ScaleKeys, Mul;
    ScaledSums(e, c.scale, Bias(c), ks, st.m.s);
    SumsJoined(e, e(Bias(c)), done, ScaleKeys(c.scale, ks), Mul(c.scale, st.m.s), st.l, st.o);
  }

  /** What the flags of a call promise about its pair. */
  predicate CallOk(r: Row, t0: nat, k: L.Call) {
    && k.j >= 0 && (k.init ==> k.j == t0) && (k.skipMax ==> k.j > t0)
    && (!k.doMask && r.causal ==> 64 * (k.j + 2) <= r.WaveStart() + r.Delta() + 1)
  }

  /** The masks of a pair leave exactly the keys that the row may see. */
  lemma PairMaskIsComplete(r: Row, d: Data, j: nat, doMask: bool, t: nat)
    requires RowOk(r) && j <= t < j + 2
    requires !doMask && r.causal ==> 64 * (j + 2) <= r.WaveStart() + r.Delta() + 1
    ensures Masked(r, d, j, doMask, t) == SeenTile(r, d, t)
  {
    var got := Masked(r, d, j, doMask, t);
    forall i | 0 <= i < 64 ensures got[i] == SeenTile(r, d, t)[i] {
      assert SeenTile(r, d, t)[i] == SeenKey(r, d, 64 * t + i);
      assert RawTile(d, t)[i] == Key(Fin(d.score(64 * t + i)), d.value(64 * t + i));
      KeptIsVisible(r, 64 * t + i);
    }
  }

  lemma TileKeeps(g: Job, j: nat, doMask: bool, t: nat, t0: nat, st: State)
    requires IsExp2(g.e) && RowOk(g.r) && t0 <= t && j <= t < j + 2 && st.m.Fin?
    requires !doMask && g.r.causal ==> 64 * (j + 2) <= g.r.WaveStart() + g.r.Delta() + 1
    requires Online8(g.e, g.c, Span(g.r, Scaled(g.c, g.d), t0, t - t0), st)
    ensures var st' := Subtile(g.e, g.c, Masked(g.r, g.d, j, doMask, t), VTile(g.d, t), st);
      st'.m == st.m && Online8(g.e, g.c, Span(g.r, Scaled(g.c, g.d), t0, t + 1 - t0), st')
  {
    hide IsExp2, RowOk, Online8, Subtile, Masked, VTile, SeenTile, ScaleKeys, Scaled;
    PairMaskIsComplete(g.r, g.d, j, doMask, t);
    VTileIs(g.r, g.d, t);
    ScaledTile(g.c, g.r, g.d, t);
    SubtileKeeps(g.e, g.c, Masked(g.r, g.d, j, doMask, t), VTile(g.d, t), st, Span(g.r, Scaled(g.c, g.d), t0, t - t0));
  }

  lemma PairMaxFinite(g: Job, j: nat, doMask: bool)
    requires RowOk(g.r) && (g.r.causal || j + 4 <= T.MaxTiles(g.r.Block()))
    ensures PairMax(g.c, g.r, g.d, j, doMask).Fin?
  {
    hide RowOk, Masked, SeenTile, RowMax, HasLive;
    if !g.r.causal {
      PairMaskIsComplete(g.r, g.d, j, doMask, j);
      FirstTileLive(g.r, g.d, j);
      MaxBounds(SeenTile(g.r, g.d, j));
    }
  }

  lemma PreparedKeeps(g: Job, t0: nat, k: L.Call, st: State, done: seq<Key>)
    requires IsExp2(g.e) && RowOk(g.r) && CallOk(g.r, t0, k)
    requires Online8(g.e, g.c, done, st) && (k.j == t0 ==> done == [] && st == START && t0 + 4 <= T.MaxTiles(g.r.Block())) && (k.j != t0 ==> st.m.Fin?)
    ensures Prepared(g, k, st).m.Fin? && Online8(g.e, g.c, done, Prepared(g, k, st))
  {
    hide IsExp2, RowOk, Sums, Bias, PairMax, CorrectO, Mul;
    var tileMax := PairMax(g.c, g.r, g.d, k.j, k.doMask);
    if k.j == t0 {
      PairMaxFinite(g, k.j, k.doMask);
      NothingSummed(g.e, g.e(Bias(g.c)), Mul(g.c.scale, tileMax.s));
    }
    if !k.skipMax {
      CorrectKeeps(g.e, g.c, g.peersBelow(k.j), st, tileMax, done);
    }
  }

  lemma IterateKeeps(g: Job, t0: nat, k: L.Call, st: State)
    requires IsExp2(g.e) && RowOk(g.r) && CallOk(g.r, t0, k) && t0 <= k.j
    requires Online8(g.e, g.c, Span(g.r, Scaled(g.c, g.d), t0, k.j - t0), st)
    requires (k.j == t0 ==> st == START && t0 + 4 <= T.MaxTiles(g.r.Block())) && (k.j != t0 ==> st.m.Fin?)
    ensures Iterate(g, k, st).m.Fin? && Online8(g.e, g.c, Span(g.r, Scaled(g.c, g.d), t0, k.j + 2 - t0), Iterate(g, k, st))
  {
    hide IsExp2, RowOk, Online8, Prepared, Subtile, Masked, VTile, Scaled, SeenTile;
    PreparedKeeps(g, t0, k, st, Span(g.r, Scaled(g.c, g.d), t0, k.j - t0));
    TileKeeps(g, k.j, k.doMask, k.j, t0, Prepared(g, k, st));
    var st1 := Subtile(g.e, g.c, Masked(g.r, g.d, k.j, k.doMask, k.j), VTile(g.d, k.j), Prepared(g, k, st));
    TileKeeps(g, k.j, k.doMask, k.j + 1, t0, st1);
  }

  /** The calls visit the pairs t0, t0+2, .. in order, each with flags that are true of it. */
  predicate CallsOk(r: Row, t0: nat, calls: seq<L.Call>) {
    && L.InOrder(calls, t0, t0 + 2 * |calls|)
    && forall i :: 0 <= i < |calls| ==> CallOk(r, t0, calls[i])
  }

  /** MAIN. Whatever loops a wave runs and whatever its ballots are, the state stays 2^bias times the
      sums over exactly the visible keys of the tiles so far. */
  lemma {:induction false} RunKeeps(g: Job, t0: nat, calls: seq<L.Call>)
    requires IsExp2(g.e) && RowOk(g.r) && t0 + 4 <= T.MaxTiles(g.r.Block()) && CallsOk(g.r, t0, calls)
    ensures Calls(calls)
    ensures Online8(g.e, g.c, Span(g.r, Scaled(g.c, g.d), t0, 2 * |calls|), Run(g, calls)) && (calls != [] ==> Run(g, calls).m.Fin?)
    decreases |calls|
  {
    hide IsExp2, RowOk, Iterate, CallOk, Sums;
    CallsAreOk(g.r, t0, calls);
    if calls != [] {
      var k := |calls| - 1;
      RunKeeps(g, t0, calls[..k]);
      IterateKeeps(g, t0, calls[k], Run(g, calls[..k]));
    }
  }

  ghost predicate ScoreIs(g: Job, k: L.Call, t: int, i: int, m: Score) {
    k.j >= 0 && k.j <= t < k.j + 2 && 0 <= i < 64 && Masked(g.r, g.d, k.j, k.doMask, t)[i].score == m
  }

  /** `m` is the floor of causal rows or a logit that some call has scored. */
  ghost predicate IsAScore(g: Job, calls: seq<L.Call>, m: Score) {
    (g.r.causal && m == Fin(g.c.floor)) || exists k, t, i :: k in calls && ScoreIs(g, k, t, i, m)
  }

  /** MAIN. The maximum of a run is never above its logits: it is one of them, or the floor. */
  lemma {:induction false} RunMaxIsAScore(g: Job, calls: seq<L.Call>)
    requires Calls(calls)
    ensures Run(g, calls).m.Fin? ==> IsAScore(g, calls, Run(g, calls).m)
    decreases |calls|
  {
    hide Iterate, PairMax, Masked;
    if calls != [] {
      var n := |calls| - 1;
      var k, st := calls[n], Run(g, calls[..n]);
      RunMaxIsAScore(g, calls[..n]);
      KeepsMax(g, k, st);
      assert forall c :: c in calls[..n] ==> c in calls;
      if Prepared(g, k, st).m.Fin? && Prepared(g, k, st).m != st.m {
        PreparedMax(g, k, st);
        var t, i := PairMaxAttained(g, k.j, k.doMask);
        assert k in calls && (ScoreIs(g, k, t, i, Prepared(g, k, st).m) || g.r.causal);
      }
    }
  }

  lemma PreparedMax(g: Job, k: L.Call, st: State)
    requires k.j >= 0 && Prepared(g, k, st).m.Fin? && Prepared(g, k, st).m != st.m
    ensures Prepared(g, k, st).m == PairMax(g.c, g.r, g.d, k.j, k.doMask)
  {
    hide PairMax;
  }

  lemma CallsAreOk(r: Row, t0: nat, calls: seq<L.Call>)
    requires CallsOk(r, t0, calls)
    ensures Calls(calls) && (calls != [] ==> CallsOk(r, t0, calls[..|calls| - 1]) && calls[|calls| - 1].j == t0 + 2 * (|calls| - 1))
  {
  }

  // ------------------------------------------------------------------------ the result

  /** safe_l_inv times the value scale, applied to O. */
  function Output(c: Params, st: State): real {
    Mul(st.o, Mul(SafeInverse(st.l), c.valueScale))
  }

  lemma OutputIsDirect(e: real -> real, c: Params, ks: seq<Key>, st: State)
    requires IsExp2(e) && Online8(e, c, ks, st) && st.m.Fin?
    ensures Output(c, st) == c.valueScale * Direct(e, ks)
  {
    hide IsExp2, Mass, Acc, Direct, Bias, SafeInverse;
    assert Sums(e, e(Bias(c)), ks, Mul(c.scale, st.m.s), st.l, st.o);
    ExpPositive(e, Bias(c));
    Normalised(e, ks, Mul(c.scale, st.m.s), e(Bias(c)), st.l, st.o);
    Reassociate(st.o, SafeInverse(st.l), c.valueScale);
  }

  lemma Reassociate(a: real, b: real, c: real)
    ensures a * (b * c) == c * (a * b)
  {
  }

  /** The whole sequence: attention on the scaled logits, times the value scale. */
  ghost function Attention(g: Job): real
  {
    g.c.valueScale * Direct(g.e, AllKeys(g.r, Scaled(g.c, g.d)))
  }

  lemma RunIsAttention(g: Job, calls: seq<L.Call>)
    requires IsExp2(g.e) && RowOk(g.r) && CallsOk(g.r, 0, calls) && 2 * |calls| == T.MaxTiles(g.r.Block()) && calls != []
    ensures Calls(calls) && Output(g.c, Run(g, calls)) == Attention(g)
  {
    hide IsExp2, RowOk, CallsOk, Online8, Run, Span, Output, Direct, T.MaxTiles, Covers;
    AtLeastFour(g.r);
    RunKeeps(g, 0, calls);
    UnsplitCovers(g.r);
    CoveredDirect(g.e, g.r, Scaled(g.c, g.d), 2 * |calls|);
    OutputIsDirect(g.e, g.c, Span(g.r, Scaled(g.c, g.d), 0, 2 * |calls|), Run(g, calls));
  }

  lemma AtLeastFour(r: Row)
    ensures T.MaxTiles(r.Block()) >= 4 && T.MaxTiles(r.Block()) % 2 == 0
  {
  }

  // ------------------------------------------------------------------------ the loops

  lemma {:induction false} LoopGrows(from: int, j: int, doMask: bool, skipMax: bool, init: bool, maskV: bool)
    requires from <= j && from % 2 == j % 2
    ensures L.Loop(from, j + 2, doMask, skipMax, init, maskV)
      == L.Loop(from, j, doMask, skipMax, init, maskV) + [L.Call(j, doMask, skipMax, init, maskV)]
    decreases j - from
  {
    if from < j {
      LoopGrows(from + 2, j, doMask, skipMax, init, maskV);
    } else {
      assert L.Loop(from + 2, j + 2, doMask, skipMax, init, maskV) == [];
    }
  }

  lemma OneMoreCall(g: Job, calls: seq<L.Call>, k: L.Call)
    requires Calls(calls) && k.j >= 0
    ensures Calls(calls + [k]) && Run(g, calls + [k]) == Iterate(g, k, Run(g, calls))
  {
    hide Iterate;
    assert (calls + [k])[..|calls|] == calls;
  }

  /** A pair's products leave the maximum that the correction chose. */
  lemma KeepsMax(g: Job, k: L.Call, st: State)
    requires k.j >= 0
    ensures Iterate(g, k, st).m == Prepared(g, k, st).m
  {
    hide Prepared, Masked, VTile, ScaledProbs, Sum, Dot;
  }

  /** `for j in range(from, upto, 2)` around the pair iteration, after `calls`. */
  method PairLoop(g: Job, from: nat, upto: int, doMask: bool, skipMax: bool, init: bool, maskV: bool, st: State, ghost calls: seq<L.Call>)
      returns (st': State)
    requires from % 2 == upto % 2 && Calls(calls) && st == Run(g, calls)
    ensures Calls(calls + L.Loop(from, upto, doMask, skipMax, init, maskV))
    ensures st' == Run(g, calls + L.Loop(from, upto, doMask, skipMax, init, maskV))
  {
    hide Iterate, Run, Calls;
    st' := st;
    ghost var made := calls;
    var j := from;
    while j < upto
      invariant from <= j && from % 2 == j % 2 && (j <= upto || j == from)
      invariant made == calls + L.Loop(from, j, doMask, skipMax, init, maskV)
      invariant Calls(made) && st' == Run(g, made)
    {
      var k := L.Call(j, doMask, skipMax, init, maskV);
      LoopGrows(from, j, doMask, skipMax, init, maskV);
      OneMoreCall(g, made, k);
      st' := Iterate(g, k, st');
      made := made + [k];
      j := j + 2;
    }
  }

  lemma DenseCallsOk(r: Row, t0: nat, tEnd: nat)
    requires t0 % 2 == 0 && tEnd % 2 == 0 && t0 <= tEnd
    ensures var calls := L.Loop(t0, tEnd, true, false, false, true); CallsOk(r, t0, calls) && 2 * |calls| == tEnd - t0
  {
    var calls := L.Loop(t0, tEnd, true, false, false, true);
    L.LoopInOrder(t0, tEnd, true, false, false, true);
    forall i | 0 <= i < |calls| ensures CallOk(r, t0, calls[i]) {
      L.CallOfLoop(t0, tEnd, true, false, false, true, calls[i]);
    }
  }

  /** The dense kernel's pair loop over one segment. */
  method DenseSegment(g: Job, t0: nat, tEnd: nat) returns (st: State)
    requires IsExp2(g.e) && RowOk(g.r) && t0 % 2 == 0 && tEnd % 2 == 0 && t0 + 4 <= tEnd <= T.MaxTiles(g.r.Block())
    ensures st.m.Fin? && Online8(g.e, g.c, Span(g.r, Scaled(g.c, g.d), t0, tEnd - t0), st)
  {
    hide IsExp2, RowOk, CallsOk, Online8, Run, Span, T.MaxTiles;
    st := START;
    ghost var calls := L.Loop(t0, tEnd, true, false, false, true);
    NoCalls(g);
    st := PairLoop(g, t0, tEnd, true, false, false, true, st, []);
    assert [] + calls == calls;
    DenseCallsOk(g.r, t0, tEnd);
    RunKeeps(g, t0, calls);
  }

  lemma NoCalls(g: Job)
    ensures Run(g, []) == START
  {
  }

  /** MAIN. The dense row of an unsplit block is softmax attention on the scaled logits of exactly the
      visible keys, times the value scale: the headroom factor is gone. */
  method DenseRow(g: Job) returns (out: real)
    requires IsExp2(g.e) && RowOk(g.r)
    ensures out == Attention(g)
  {
    hide IsExp2, RowOk, Online8, Run, Span, Direct, T.MaxTiles, Covers, Output;
    AtLeastFour(g.r);
    var st := DenseSegment(g, 0, T.MaxTiles(g.r.Block()));
    UnsplitCovers(g.r);
    CoveredDirect(g.e, g.r, Scaled(g.c, g.d), T.MaxTiles(g.r.Block()));
    OutputIsDirect(g.e, g.c, Span(g.r, Scaled(g.c, g.d), 0, T.MaxTiles(g.r.Block())), st);
    out := Output(g.c, st);
  }

  // -------------------------------------------------------------------------- headroom

  ghost predicate HeadroomOk(e: real -> real, c: Params) {
    IsExp2(e) && e(c.h448) == 448.0 && c.h448 >= 0.0 && c.scale > 0.0 && (c.lazy ==> 0.0 <= c.threshold <= c.h448)
  }

  /** How far above the running maximum a pair's logits may be when they are exponentiated. */
  function Slack(c: Params): real { if c.lazy then c.threshold else 0.0 }

  predicate Within(c: Params, s: Score, m: Score) {
    m.Fin? && (s.NegInf? || Mul(c.scale, s.s - m.s) <= Slack(c))
  }

  lemma FitsE4m3(e: real -> real, c: Params, s: Score, m: real)
    requires HeadroomOk(e, c) && Within(c, s, Fin(m))
    ensures 0.0 <= ScaledProb(e, c.scale, Bias(c), s, m) <= 448.0
  {
    hide Mul;
    if s.Fin? {
      var x := Mul(c.scale, s.s - m) + Bias(c);
      assert x <= c.h448;
      Monotone(e, x, c.h448);
      ExpPositive(e, x);
    }
  }

  lemma Monotone(e: real -> real, x: real, y: real)
    requires IsExp2(e) && x <= y
    ensures e(x) <= e(y)
  {
  }

  /** MAIN. No headroom is wasted: within the threshold's bound, the largest logit that may be cast gives exactly 448. */
  lemma HeadroomIsUsed(e: real -> real, c: Params, m: real)
    requires HeadroomOk(e, c)
    ensures Bias(c) + Slack(c) == c.h448
    ensures var s := Fin(m + Slack(c) / c.scale); Within(c, s, Fin(m)) && ScaledProb(e, c.scale, Bias(c), s, m) == 448.0
  {
    hide IsExp2;
    var s := m + Slack(c) / c.scale;
    assert s - m == Slack(c) / c.scale;
    assert Mul(c.scale, s - m) == Slack(c);
  }

  /** Above log2(448) the bound is lost: a logit that the lazy test lets pass casts to more than 448. */
  lemma OverflowsAbove(e: real -> real, c: Params, m: real)
    requires IsExp2(e) && c.scale > 0.0 && c.lazy && c.threshold > c.h448
    requires e(c.h448) == 448.0 && forall x, y :: x < y ==> e(x) < e(y)
    ensures var s := Fin(m + c.threshold / c.scale); Within(c, s, Fin(m)) && ScaledProb(e, c.scale, Bias(c), s, m) > 448.0
  {
    var s := m + c.threshold / c.scale;
    assert s - m == c.threshold / c.scale;
    assert Mul(c.scale, s - m) == c.threshold;
    assert e(c.h448) < e(c.threshold + 0.0);
  }

  lemma WithinMono(c: Params, a: Score, b: Score, m: Score)
    requires c.scale > 0.0 && Le(a, b) && Within(c, b, m)
    ensures Within(c, a, m)
  {
    if a.Fin? {
      assert Mul(c.scale, b.s - m.s) - Mul(c.scale, a.s - m.s) == Mul(c.scale, b.s - a.s);
      NonNegative(c.scale, b.s - a.s);
    }
  }

  lemma NonNegative(x: real, y: real)
    requires x > 0.0 && y >= 0.0
    ensures Mul(x, y) >= 0.0
  {
  }

  lemma PairMaxBounds(c: Params, r: Row, d: Data, j: nat, doMask: bool, t: nat, i: nat)
    requires j <= t < j + 2 && i < 64
    ensures Le(Masked(r, d, j, doMask, t)[i].score, PairMax(c, r, d, j, doMask))
  {
    hide Masked, RowMax;
    MaxBounds(Masked(r, d, j, doMask, j));
    MaxBounds(Masked(r, d, j, doMask, j + 1));
  }

  lemma PreparedBounds(g: Job, k: L.Call, st: State)
    requires HeadroomOk(g.e, g.c) && k.j >= 0 && Prepared(g, k, st).m.Fin?
    requires k.skipMax && !k.init ==> Within(g.c, PairMax(g.c, g.r, g.d, k.j, k.doMask), st.m)
    ensures Within(g.c, PairMax(g.c, g.r, g.d, k.j, k.doMask), Prepared(g, k, st).m)
  {
    hide PairMax, Mul, IsExp2;
    var tileMax, m := PairMax(g.c, g.r, g.d, k.j, k.doMask), Prepared(g, k, st).m;
    if tileMax.Fin? && tileMax.s <= m.s {
      NonNegative(g.c.scale, m.s - tileMax.s);
      MulMinus(g.c.scale, tileMax.s - m.s);
    }
  }

  lemma MulMinus(x: real, y: real)
    ensures Mul(x, 0.0 - y) == 0.0 - Mul(x, y)
  {
  }

  /** Every probability that calls[..n] hand to the e4m3 cast is at most 448. */
  ghost predicate RunFits(g: Job, calls: seq<L.Call>)
    requires Calls(calls)
  {
    forall p, t, i :: 0 <= p < |calls| && calls[p].j <= t < calls[p].j + 2 && 0 <= i < 64 ==> Fits(g, calls, p, t, i)
  }

  ghost predicate Fits(g: Job, calls: seq<L.Call>, p: int, t: int, i: int)
    requires Calls(calls) && 0 <= p < |calls| && calls[p].j <= t < calls[p].j + 2 && 0 <= i < 64
  {
    var k := calls[p];
    var m := Prepared(g, k, Run(g, calls[..p])).m;
    m.Fin? && 0.0 <= ScaledProb(g.e, g.c.scale, Bias(g.c), Masked(g.r, g.d, k.j, k.doMask, t)[i].score, m.s) <= 448.0
  }

  /** A pair that skips the maximum does not need it. */
  ghost predicate SkipsAreSafe(g: Job, calls: seq<L.Call>)
    requires Calls(calls)
  {
    forall p :: 0 <= p < |calls| ==> SkipIsSafe(g, calls, p)
  }

  ghost predicate SkipIsSafe(g: Job, calls: seq<L.Call>, p: int)
    requires Calls(calls) && 0 <= p < |calls|
  {
    calls[p].skipMax ==> Within(g.c, PairMax(g.c, g.r, g.d, calls[p].j, calls[p].doMask), Run(g, calls[..p]).m)
  }

  lemma ThisFits(g: Job, t0: nat, calls: seq<L.Call>, p: nat, t: int, i: int)
    requires HeadroomOk(g.e, g.c) && RowOk(g.r) && t0 + 4 <= T.MaxTiles(g.r.Block()) && CallsOk(g.r, t0, calls) && Calls(calls)
    requires p < |calls| && calls[p].j <= t < calls[p].j + 2 && 0 <= i < 64 && SkipIsSafe(g, calls, p)
    ensures Fits(g, calls, p, t, i)
  {
    hide IsExp2, RowOk, Prepared, Run, Online8, PairMax, Masked, Within, ScaledProb, CallOk;
    var k := calls[p];
    RunKeeps(g, t0, calls[..p]);
    RunStarts(g, calls[..p]);
    PreparedKeeps(g, t0, k, Run(g, calls[..p]), Span(g.r, Scaled(g.c, g.d), t0, k.j - t0));
    PreparedBounds(g, k, Run(g, calls[..p]));
    PairMaxBounds(g.c, g.r, g.d, k.j, k.doMask, t, i);
    var m := Prepared(g, k, Run(g, calls[..p])).m;
    WithinMono(g.c, Masked(g.r, g.d, k.j, k.doMask, t)[i].score, PairMax(g.c, g.r, g.d, k.j, k.doMask), m);
    FitsE4m3(g.e, g.c, Masked(g.r, g.d, k.j, k.doMask, t)[i].score, m.s);
  }

  lemma RunStarts(g: Job, calls: seq<L.Call>)
    requires Calls(calls)
    ensures calls == [] ==> Run(g, calls) == START
  {
  }

  /** MAIN. In every run, lazy with a threshold of at most log2(448) or eager, whatever the ballots, no
      probability overflows the e4m3 cast. */
  lemma NothingOverflows(g: Job, t0: nat, calls: seq<L.Call>)
    requires HeadroomOk(g.e, g.c) && RowOk(g.r) && t0 + 4 <= T.MaxTiles(g.r.Block()) && CallsOk(g.r, t0, calls) && Calls(calls)
    requires SkipsAreSafe(g, calls)
    ensures RunFits(g, calls)
  {
    hide HeadroomOk, RowOk, CallsOk, Fits, SkipIsSafe;
    forall p, t, i | 0 <= p < |calls| && calls[p].j <= t < calls[p].j + 2 && 0 <= i < 64 ensures Fits(g, calls, p, t, i) {
      ThisFits(g, t0, calls, p, t, i);
    }
  }

  // ------------------------------------------------------- a run above the threshold

  /** A row of four full tiles: logits 0 in the first pair, just at the threshold in the second. */
  function StepJob(e: real -> real, c: Params): Job
    requires c.scale > 0.0
  {
    Job(e, c, Row(false, false, 8, 0, 0, 0, 1, 256), Data((k: nat) => if k < 128 then 0.0 else c.threshold / c.scale, (k: nat) => 0.0), (j: int) => true)
  }

  function StepScore(c: Params, t: nat): real
    requires c.scale > 0.0
  {
    if t < 2 then 0.0 else c.threshold / c.scale
  }

  lemma StepTile(e: real -> real, c: Params, j: nat, t: nat)
    requires c.scale > 0.0 && t < 4 && j <= t < j + 2
    ensures var g := StepJob(e, c); forall i :: 0 <= i < 64 ==> Masked(g.r, g.d, j, true, t)[i].score == Fin(StepScore(c, t))
  {
    var g := StepJob(e, c);
    forall i | 0 <= i < 64 ensures Masked(g.r, g.d, j, true, t)[i].score == Fin(StepScore(c, t)) {
      assert RawTile(g.d, t)[i] == Key(Fin(g.d.score(64 * t + i)), g.d.value(64 * t + i));
    }
  }

  lemma {:induction false} ConstantMax(ks: seq<Key>, x: real)
    requires ks != [] && forall i :: 0 <= i < |ks| ==> ks[i].score == Fin(x)
    ensures RowMax(ks) == Fin(x)
    decreases |ks|
  {
    if |ks| > 1 {
      ConstantMax(ks[..|ks| - 1], x);
    }
  }

  lemma StepMax(e: real -> real, c: Params, j: nat)
    requires c.scale > 0.0 && (j == 0 || j == 2)
    ensures var g := StepJob(e, c); PairMax(c, g.r, g.d, j, true) == Fin(StepScore(c, j))
  {
    hide Masked, RowMax;
    var g := StepJob(e, c);
    StepTile(e, c, j, j);
    StepTile(e, c, j, j + 1);
    ConstantMax(Masked(g.r, g.d, j, true, j), StepScore(c, j));
    ConstantMax(Masked(g.r, g.d, j, true, j + 1), StepScore(c, j + 1));
  }

  /** The dense loop's calls on four tiles. */
  function FourTiles(): seq<L.Call> { [L.Call(0, true, false, false, true), L.Call(2, true, false, false, true)] }

  lemma FourTilesAreTheLoop(e: real -> real, c: Params)
    requires c.scale > 0.0
    ensures FourTiles() == L.Loop(0, 4, true, false, false, true) && Calls(FourTiles()) && Calls(FourTiles()[..1])
    ensures RowOk(StepJob(e, c).r) && T.MaxTiles(StepJob(e, c).r.Block()) == 4 && CallsOk(StepJob(e, c).r, 0, FourTiles())
  {
    assert L.Loop(4, 4, true, false, false, true) == [];
    assert L.Loop(2, 4, true, false, false, true) == [FourTiles()[1]];
  }

  lemma StepState(e: real -> real, c: Params)
    requires c.scale > 0.0
    ensures Calls(FourTiles()[..1]) && Run(StepJob(e, c), FourTiles()[..1]).m == Fin(0.0)
  {
    hide PairMax, Iterate, Mul;
    var g, k := StepJob(e, c), FourTiles()[0];
    assert FourTiles()[..1] == [] + [k];
    NoCalls(g);
    OneMoreCall(g, [], k);
    KeepsMax(g, k, START);
    StepMax(e, c, 0);
  }

  /** The ballot of the second pair passes, so that the maximum stays, and a probability of that pair that goes
      to the cast exceeds 448. */
  ghost predicate SecondPairOverflows(g: Job, calls: seq<L.Call>) {
    && |calls| == 2 && Calls(calls) && Calls(calls[..1])
    && var k, st := calls[1], Run(g, calls[..1]);
    && g.peersBelow(k.j) && Below(g.c, st.m, PairMax(g.c, g.r, g.d, k.j, k.doMask)) && Prepared(g, k, st).m == st.m
    && ScaledProb(g.e, g.c.scale, Bias(g.c), Masked(g.r, g.d, k.j, k.doMask, k.j)[0].score, st.m.s) > 448.0
    && !RunFits(g, calls)
  }

  /** MAIN. The threshold's bound is needed: whenever a lazy threshold exceeds log2(448), the dense loop on four
      tiles reaches a pair whose ballot passes and that hands more than 448 to the cast. */
  lemma AboveTheBoundARunOverflows(e: real -> real, c: Params)
    requires IsExp2(e) && e(c.h448) == 448.0 && (forall x, y :: x < y ==> e(x) < e(y))
    requires c.lazy && c.scale > 0.0 && c.threshold > c.h448
    ensures RowOk(StepJob(e, c).r) && T.MaxTiles(StepJob(e, c).r.Block()) == 4 && CallsOk(StepJob(e, c).r, 0, FourTiles())
    ensures SecondPairOverflows(StepJob(e, c), FourTiles())
  {
    hide IsExp2, PairMax, Masked, Run, RowOk, CallsOk, T.MaxTiles;
    var g, calls := StepJob(e, c), FourTiles();
    FourTilesAreTheLoop(e, c);
    StepState(e, c);
    StepMax(e, c, 2);
    StepTile(e, c, 2, 2);
    var x := c.threshold / c.scale;
    AtThreshold(c, x);
    assert Masked(g.r, g.d, 2, true, 2)[0].score == Fin(x);
    assert e(c.h448) < e(c.threshold);
    assert !Fits(g, calls, 1, 2, 0);
  }

  lemma AtThreshold(c: Params, x: real)
    requires c.scale > 0.0 && x == c.threshold / c.scale && c.lazy && c.threshold > c.h448
    ensures Mul(c.scale, x - 0.0) == c.threshold && Bias(c) == 0.0
  {
  }
}
