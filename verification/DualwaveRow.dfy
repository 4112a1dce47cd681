/** The online softmax of the dual-wave kernel for one query row and one output column: scores
    one tile ahead, probabilities computed in two halves, P times V in four steps with a lazy
    rescale after the first, and row sums rescaled late in the epilogue. */
module DualwaveRow {
  import opened Masks
  import opened Rows
  import opened Softmax
  import G = GenericRow
  import T = Tiles

  /** Score differences waiting for their exp2. */
  function Diffs(ks: seq<Key>, m: real): seq<Score> {
    seq(|ks|, i requires 0 <= i < |ks| => if ks[i].score.Fin? then Fin(ks[i].score.s - m) else NegInf)
  }

  function Exp2All(e: real -> real, ds: seq<Score>): seq<real> {
    seq(|ds|, i requires 0 <= i < |ds| => Prob(e, ds[i], 0.0))
  }

  /** A tile between its two exp2 passes: the first 32 columns are probabilities, the rest
      differences. */
  datatype HalfDone = HalfDone(lo: seq<real>, hi: seq<Score>)

  function Started(e: real -> real, ks: seq<Key>, m: real): HalfDone
    requires |ks| == 64
  {
    HalfDone(Exp2All(e, Diffs(ks[..32], m)), Diffs(ks[32..], m))
  }

  lemma ExpOfDiffs(e: real -> real, ks: seq<Key>, m: real)
    ensures Exp2All(e, Diffs(ks, m)) == Probs(e, ks, m)
  {
    forall i | 0 <= i < |ks| ensures Exp2All(e, Diffs(ks, m))[i] == Probs(e, ks, m)[i] {
      if ks[i].score.Fin? { assert (ks[i].score.s - m) - 0.0 == ks[i].score.s - m; }
    }
  }

  /** sub_m and the first exp2 pass. */
  method StartSoftmax(e: real -> real, ks: seq<Key>, m: real) returns (h: HalfDone)
    requires |ks| == 64
    ensures h == Started(e, ks, m)
  {
    var ds := Diffs(ks, m);
    assert ds[..32] == Diffs(ks[..32], m) && ds[32..] == Diffs(ks[32..], m);
    h := HalfDone(Exp2All(e, ds[..32]), ds[32..]);
  }

  /** The second exp2 pass and the row sum. */
  method FinishSoftmax(e: real -> real, h: HalfDone, l: real, ghost ks: seq<Key>, ghost m: real) returns (p: seq<real>, l': real)
    requires |ks| == 64 && h == Started(e, ks, m)
    ensures p == Probs(e, ks, m) && l' == l + Mass(e, ks, m)
  {
    p := h.lo + Exp2All(e, h.hi);
    ExpOfDiffs(e, ks[..32], m);
    ExpOfDiffs(e, ks[32..], m);
    assert p == Probs(e, ks, m);
    ProbsSum(e, ks, m);
    l' := l + Sum(p);
  }

  // -------------------------------------------------------------- P times V, in steps

  /** PV step `k`: columns 16k .. 16k+15. */
  function PvStep(k: nat, p: seq<real>, v: seq<real>, o: real): real
    requires k < 4 && |p| == |v| == 64
  {
    o + Dot(p[16 * k..16 * k + 16], v[16 * k..16 * k + 16])
  }

  lemma StepAdds(e: real -> real, ks: seq<Key>, m: real, k: nat, done: seq<Key>)
    requires k < 4 && |ks| == 64
    ensures PvStep(k, Probs(e, ks, m), Values(ks), Acc(e, done + ks[..16 * k], m)) == Acc(e, done + ks[..16 * k + 16], m)
  {
    var q := ks[16 * k..16 * k + 16];
    assert Probs(e, ks, m)[16 * k..16 * k + 16] == Probs(e, q, m);
    assert Values(ks)[16 * k..16 * k + 16] == Values(q);
    ProbsSum(e, q, m);
    Concat(e, done + ks[..16 * k], q, m);
    assert done + ks[..16 * k + 16] == done + ks[..16 * k] + q;
  }

  /** Steps 1, 2, 3 after step 0. */
  lemma LastSteps(e: real -> real, ks: seq<Key>, m: real, done: seq<Key>)
    requires |ks| == 64
    ensures var p, v := Probs(e, ks, m), Values(ks);
      PvStep(3, p, v, PvStep(2, p, v, PvStep(1, p, v, Acc(e, done + ks[..16], m)))) == Acc(e, done + ks, m)
  {
    hide *;
    FourQuarters(ks, done);
    StepAdds(e, ks, m, 1, done);
    StepAdds(e, ks, m, 2, done);
    StepAdds(e, ks, m, 3, done);
  }

  lemma FourQuarters(ks: seq<Key>, done: seq<Key>)
    requires |ks| == 64
    ensures done + ks[..0] == done && done + ks[..64] == done + ks
    ensures |Values(ks)| == 64
  {
  }

  method Pv(e: real -> real, p: seq<real>, v: seq<real>, o: real, ghost ks: seq<Key>, ghost done: seq<Key>, ghost m: real) returns (o': real)
    requires |ks| == 64 && p == Probs(e, ks, m) && v == Values(ks) && o == Acc(e, done, m)
    ensures o' == Acc(e, done + ks, m)
  {
    FourQuarters(ks, done);
    o' := o;
    for k := 0 to 4
      invariant o' == Acc(e, done + ks[..16 * k], m)
    {
      StepAdds(e, ks, m, k, done);
      o' := PvStep(k, p, v, o');
    }
  }

  // -------------------------------------------------------------------- rescaling

  /** Rescaling in the loop. Lazy: if every lane of the wave (this row and its `peersBelow`) is
      within the threshold nothing changes; otherwise, and always when eager, the maximum is
      raised and O, l and the pending probabilities move to it. */
  method Rescale(e: real -> real, lazy: bool, threshold: real, peersBelow: bool,
                 o: real, m: real, l: real, tileMax: Score, p: seq<real>) returns (o': real, m': real, l': real, p': seq<real>)
    requires IsExp2(e) && threshold >= 0.0
    ensures m' >= m && o' == o * e(m - m') && l' == l * e(m - m') && p' == Scale(p, e(m - m'))
    ensures Le(tileMax, Fin(m' + if lazy then threshold else 0.0))
    ensures Fin(m') == if lazy && peersBelow && Le(tileMax, Fin(m + threshold)) then Fin(m) else Max2(Fin(m), tileMax)
  {
    hide IsExp2;
    m' := Max2(Fin(m), tileMax).s;
    if lazy && peersBelow && (tileMax.NegInf? || tileMax.s - m <= threshold) {
      m' := m;
      ZeroExp(e, m);
      o', l', p' := o, l, p;
      assert Scale(p, e(m - m')) == p;
    } else {
      var corr := e(m - m');
      o', l', p' := o * corr, l * corr, Scale(p, corr);
    }
  }

  lemma ZeroExp(e: real -> real, m: real)
    requires IsExp2(e)
    ensures e(m - m) == 1.0
  {
  }

  lemma Moved(e: real -> real, a: seq<Key>, m: real, m': real)
    requires IsExp2(e)
    ensures Mass(e, a, m') == Mass(e, a, m) * e(m - m') && Acc(e, a, m') == Acc(e, a, m) * e(m - m')
  {
    hide IsExp2;
    Rebased(e, a, m, m');
  }

  /** Loop clusters 3 and 7: PV step 0 of the pending tile, rescale for the next tile's scores,
      PV steps 1 to 3, and the start of the next tile's softmax. */
  method ProductCluster(e: real -> real, lazy: bool, threshold: real, peersBelow: bool,
                        p: seq<real>, v: seq<real>, next: seq<Key>, o: real, m: real, l: real, ghost pending: seq<Key>, ghost done: seq<Key>)
      returns (o': real, m': real, l': real, h: HalfDone)
    requires IsExp2(e) && threshold >= 0.0 && |pending| == |next| == 64
    requires p == Probs(e, pending, m) && v == Values(pending) && o == Acc(e, done, m) && l == Mass(e, done + pending, m)
    ensures m' >= m && o' == Acc(e, done + pending, m') && l' == Mass(e, done + pending, m') && h == Started(e, next, m')
    ensures Le(RowMax(next), Fin(m' + if lazy then threshold else 0.0)) && (m' == m || Fin(m') == RowMax(next))
  {
    hide IsExp2, PvStep, RowMax, Started, Acc, Mass;
    FourQuarters(pending, done);
    StepAdds(e, pending, m, 0, done);
    var o1 := PvStep(0, p, v, o);
    var p1: seq<real>;
    o1, m', l', p1 := Rescale(e, lazy, threshold, peersBelow, o1, m, l, RowMax(next), p);
    Moved(e, done + pending[..16], m, m');
    Moved(e, done + pending, m, m');
    ProbsRebased(e, pending, m, m');
    LastSteps(e, pending, m', done);
    assert p1 == Probs(e, pending, m');
    assert o1 == Acc(e, done + pending[..16], m');
    o' := PvStep(1, p1, v, o1);
    o' := PvStep(2, p1, v, o');
    o' := PvStep(3, p1, v, o');
    h := StartSoftmax(e, next, m');
  }

  /** Epilogue clusters 3, 7 and 11: the whole product, the next maximum, the start of the next
      softmax, and the rescale of O; the factor for l is handed to a later cluster. */
  method EpilogueCluster(e: real -> real, p: seq<real>, v: seq<real>, next: seq<Key>, o: real, m: real,
                         ghost pending: seq<Key>, ghost done: seq<Key>) returns (o': real, m': real, rescale: real, h: HalfDone)
    requires IsExp2(e) && |pending| == |next| == 64
    requires p == Probs(e, pending, m) && v == Values(pending) && o == Acc(e, done, m)
    ensures m' >= m && o' == Acc(e, done + pending, m') && rescale == e(m - m') && h == Started(e, next, m')
    ensures Fin(m') == Max2(Fin(m), RowMax(next))
  {
    hide IsExp2, RowMax, Started, Acc;
    o' := Pv(e, p, v, o, pending, done, m);
    m' := Max2(Fin(m), RowMax(next)).s;
    rescale := e(m - m');
    h := StartSoftmax(e, next, m');
    Moved(e, done + pending, m, m');
    o' := o' * rescale;
  }

  // ---------------------------------------------------------------- the whole segment

  /** The scores of tile x after the masks of its program point. */
  function Masked(r: Row, d: Data, t0: nat, n: nat, x: nat): seq<Key> {
    if MasksAt(r, PointOf(x, n)) then MaskCall(r, t0 + x, RawTile(d, t0 + x)) else RawTile(d, t0 + x)
  }

  lemma NextSpan(r: Row, d: Data, t0: nat, x: nat)
    ensures Span(r, d, t0, x + 1) == Span(r, d, t0, x) + SeenTile(r, d, t0 + x) && |SeenTile(r, d, t0 + x)| == 64
  {
  }

  /** Prologue: tile 0 is scored against its own maximum; causal rows floor it. */
  method Prologue(e: real -> real, r: Row, d: Data, t0: nat, n: nat, floor: real) returns (m: real, h: HalfDone)
    requires RowOk(r) && t0 % 2 == 0 && n % 2 == 0 && n >= 4 && t0 + n <= T.MaxTiles(r.Block())
    ensures Between(e, r, d, t0, 0, 0.0, m, 0.0, h)
    ensures Fin(m) == if r.causal then Max2(RowMax(SeenTile(r, d, t0)), Fin(floor)) else RowMax(SeenTile(r, d, t0))
  {
    hide RowOk, SeenTile, Masked, Started, RowMax, HasLive;
    var ks := Masked(r, d, t0, n, 0);
    MaskedIs(r, d, t0, n, 0);
    NextSpan(r, d, t0, 0);
    var rowMax := RowMax(ks);
    if r.causal {
      rowMax := Max2(rowMax, Fin(floor));
    } else {
      FirstTileLive(r, d, t0);
      MaxBounds(ks);
    }
    m := rowMax.s;
    h := StartSoftmax(e, ks, m);
    EmptySpan(e, r, d, t0, m);
  }

  /** The state between two tiles: tile x is half exponentiated, the tiles before it are done. */
  ghost predicate Between(e: real -> real, r: Row, d: Data, t0: nat, x: nat, o: real, m: real, l: real, h: HalfDone) {
    && h == Started(e, SeenTile(r, d, t0 + x), m)
    && l == Mass(e, Span(r, d, t0, x), m) && o == Acc(e, Span(r, d, t0, x), m)
  }

  /** Half a loop iteration (clusters 0-3 or 4-7): finish tile x, score tile x+1, accumulate. */
  method HalfIteration(e: real -> real, lazy: bool, threshold: real, peersBelow: bool, r: Row, d: Data, t0: nat, n: nat, x: nat,
                       o: real, m: real, l: real, h: HalfDone) returns (o': real, m': real, l': real, h': HalfDone)
    requires IsExp2(e) && threshold >= 0.0 && x + 1 < n
    requires RowOk(r) && t0 % 2 == 0 && n % 2 == 0 && n >= 4 && t0 + n <= T.MaxTiles(r.Block())
    requires Between(e, r, d, t0, x, o, m, l, h)
    ensures Between(e, r, d, t0, x + 1, o', m', l', h') && m' >= m
    ensures Le(RowMax(SeenTile(r, d, t0 + x + 1)), Fin(m' + if lazy then threshold else 0.0))
    ensures m' == m || Fin(m') == RowMax(SeenTile(r, d, t0 + x + 1))
  {
    hide IsExp2, RowOk, SeenTile, Started, Probs, Mass, Acc, Masked, Span, RowMax, VTile;
    NextSpan(r, d, t0, x);
    NextSpan(r, d, t0, x + 1);
    MaskedIs(r, d, t0, n, x + 1);
    VTileIs(r, d, t0 + x);
    ghost var pending, done := SeenTile(r, d, t0 + x), Span(r, d, t0, x);
    var p, l1 := FinishSoftmax(e, h, l, pending, m);
    Concat(e, done, pending, m);
    o', m', l', h' := ProductCluster(e, lazy, threshold, peersBelow, p, VTile(d, t0 + x), Masked(r, d, t0, n, x + 1), o, m, l1, pending, done);
  }

  lemma MaskedIs(r: Row, d: Data, t0: nat, n: nat, x: nat)
    requires RowOk(r) && t0 % 2 == 0 && n % 2 == 0 && n >= 4 && x < n && t0 + n <= T.MaxTiles(r.Block())
    ensures Masked(r, d, t0, n, x) == SeenTile(r, d, t0 + x)
  {
    MaskedTile(r, d, t0, n, x);
  }

  /** The epilogue's version: the factor that is owed to l from the cluster before is paid here,
      the one for the next maximum is handed on. */
  method EpilogueStep(e: real -> real, r: Row, d: Data, t0: nat, n: nat, x: nat,
                      o: real, m: real, l: real, owed: real, h: HalfDone) returns (o': real, m': real, l': real, owed': real, h': HalfDone)
    requires IsExp2(e) && x + 1 < n && RowOk(r) && t0 % 2 == 0 && n % 2 == 0 && n >= 4 && t0 + n <= T.MaxTiles(r.Block())
    requires Between(e, r, d, t0, x, o, m, l * owed, h)
    ensures Between(e, r, d, t0, x + 1, o', m', l' * owed', h') && Fin(m') == Max2(Fin(m), RowMax(SeenTile(r, d, t0 + x + 1)))
  {
    hide IsExp2, RowOk, SeenTile, Started, Probs, Mass, Acc, Masked, Span, RowMax, VTile;
    NextSpan(r, d, t0, x);
    NextSpan(r, d, t0, x + 1);
    MaskedIs(r, d, t0, n, x + 1);
    VTileIs(r, d, t0 + x);
    ghost var pending, done := SeenTile(r, d, t0 + x), Span(r, d, t0, x);
    var paid := l * owed;
    var p: seq<real>;
    p, l' := FinishSoftmax(e, h, paid, pending, m);
    Concat(e, done, pending, m);
    o', m', owed', h' := EpilogueCluster(e, p, VTile(d, t0 + x), Masked(r, d, t0, n, x + 1), o, m, pending, done);
    Moved(e, done + pending, m, m');
  }

  /** How far above the maximum a tile's logits may be when they are exponentiated. */
  function Slack(lazy: bool, threshold: real): real { if lazy then threshold else 0.0 }

  /** `ms[x]` is the maximum that tile x is exponentiated against: maxima never decrease, and no
      logit exceeds its own by more than the slack. */
  ghost predicate ExponentsBounded(slack: real, r: Row, d: Data, t0: nat, ms: seq<real>) {
    && (forall x :: 0 <= x < |ms| ==> Le(RowMax(SeenTile(r, d, t0 + x)), Fin(ms[x] + slack)))
    && (forall x, y :: 0 <= x <= y < |ms| ==> ms[x] <= ms[y])
  }

  ghost predicate TileMaxIs(r: Row, d: Data, t0: nat, y: nat, m: real) { RowMax(SeenTile(r, d, t0 + y)) == Fin(m) }

  /** `m` is the floor of causal rows, or the maximum of one of the tiles 0 .. x of the segment. */
  ghost predicate IsAMaximum(floor: real, r: Row, d: Data, t0: nat, x: nat, m: real) {
    (r.causal && m == floor) || exists y: nat :: y <= x && TileMaxIs(r, d, t0, y, m)
  }

  ghost predicate MaximaReached(floor: real, r: Row, d: Data, t0: nat, ms: seq<real>) {
    forall x: nat :: x < |ms| ==> IsAMaximum(floor, r, d, t0, x, ms[x])
  }

  lemma OneMoreMaximum(slack: real, floor: real, r: Row, d: Data, t0: nat, ms: seq<real>, m: real)
    requires ExponentsBounded(slack, r, d, t0, ms) && Le(RowMax(SeenTile(r, d, t0 + |ms|)), Fin(m + slack))
    requires MaximaReached(floor, r, d, t0, ms)
    requires if ms == [] then Fin(m) == RowMax(SeenTile(r, d, t0)) || (r.causal && m == floor)
             else ms[|ms| - 1] <= m && (m == ms[|ms| - 1] || Fin(m) == RowMax(SeenTile(r, d, t0 + |ms|)))
    ensures ExponentsBounded(slack, r, d, t0, ms + [m]) && MaximaReached(floor, r, d, t0, ms + [m])
  {
    hide RowMax, SeenTile;
    var n := |ms|;
    assert Fin(m) == RowMax(SeenTile(r, d, t0 + n)) ==> TileMaxIs(r, d, t0, n, m);
    assert n > 0 && m == ms[n - 1] ==> IsAMaximum(floor, r, d, t0, n - 1, m);
    assert IsAMaximum(floor, r, d, t0, n, m);
  }

  lemma EagerBound(slack: real, a: Score, m: real)
    requires slack >= 0.0 && Le(a, Fin(m))
    ensures Le(a, Fin(m + slack))
  {
  }

  /** MAIN. In every run, every probability that is computed for tile x is at most exp2 of the slack:
      2^8 for the lazy threshold 8, and 1 when eager. */
  lemma ProbabilitiesBounded(e: real -> real, slack: real, r: Row, d: Data, t0: nat, ms: seq<real>, x: nat, i: nat)
    requires IsExp2(e) && ExponentsBounded(slack, r, d, t0, ms) && x < |ms| && i < 64
    ensures 0.0 <= Probs(e, SeenTile(r, d, t0 + x), ms[x])[i] <= e(slack)
  {
    hide RowMax;
    var tile := SeenTile(r, d, t0 + x);
    MaxBounds(tile);
    assert Le(tile[i].score, Fin(ms[x] + slack));
  }

  /** The row over the segment t0 .. t0+n-1. `peersBelow(x)` is the ballot of the other lanes when
      tile x is scored: any outcomes. */
  method SegmentRow(e: real -> real, lazy: bool, threshold: real, floor: real, peersBelow: nat -> bool, r: Row, d: Data, t0: nat, n: nat)
      returns (o: real, m: real, l: real, ghost ms: seq<real>)
    requires IsExp2(e) && threshold >= 0.0
    requires RowOk(r) && t0 % 2 == 0 && n % 2 == 0 && n >= 4 && t0 + n <= T.MaxTiles(r.Block())
    ensures o == Acc(e, Span(r, d, t0, n), m) && l == Mass(e, Span(r, d, t0, n), m)
    ensures |ms| == n && ms[n - 1] == m && ExponentsBounded(Slack(lazy, threshold), r, d, t0, ms) && MaximaReached(floor, r, d, t0, ms)
  {
    hide IsExp2, RowOk, SeenTile, Between, Mass, Acc, Span, RowMax, ExponentsBounded, MaximaReached;
    var h: HalfDone;
    ghost var slack := Slack(lazy, threshold);
    m, h := Prologue(e, r, d, t0, n, floor);
    EagerBound(slack, RowMax(SeenTile(r, d, t0)), m);
    NoMaxima(slack, floor, r, d, t0);
    OneMoreMaximum(slack, floor, r, d, t0, [], m);
    ms := [] + [m];
    o, l := 0.0, 0.0;
    var x := 0;
    while x + 4 < n
      invariant 0 <= x <= n - 4 && x % 2 == 0
      invariant Between(e, r, d, t0, x, o, m, l, h)
      invariant |ms| == x + 1 && ms[x] == m && ExponentsBounded(slack, r, d, t0, ms) && MaximaReached(floor, r, d, t0, ms)
    {
      o, m, l, h := HalfIteration(e, lazy, threshold, peersBelow(x + 1), r, d, t0, n, x, o, m, l, h);
      OneMoreMaximum(slack, floor, r, d, t0, ms, m);
      ms := ms + [m];
      o, m, l, h := HalfIteration(e, lazy, threshold, peersBelow(x + 2), r, d, t0, n, x + 1, o, m, l, h);
      OneMoreMaximum(slack, floor, r, d, t0, ms, m);
      ms := ms + [m];
      x := x + 2;
    }
    assert x == n - 4;
    var owed := 1.0;
    NothingOwed(e, r, d, t0, x, o, m, l, h, owed);
    o, m, l, owed, h, ms := EpilogueTile(e, slack, floor, r, d, t0, n, n - 4, o, m, l, owed, h, ms);
    o, m, l, owed, h, ms := EpilogueTile(e, slack, floor, r, d, t0, n, n - 3, o, m, l, owed, h, ms);
    o, m, l, owed, h, ms := EpilogueTile(e, slack, floor, r, d, t0, n, n - 2, o, m, l, owed, h, ms);
    o, l := LastTile(e, r, d, t0, n, o, m, l, owed, h);
  }

  /** An epilogue step, with the maximum it leaves recorded. */
  method EpilogueTile(e: real -> real, ghost slack: real, ghost floor: real, r: Row, d: Data, t0: nat, n: nat, x: nat,
                      o: real, m: real, l: real, owed: real, h: HalfDone, ghost ms: seq<real>)
      returns (o': real, m': real, l': real, owed': real, h': HalfDone, ghost ms': seq<real>)
    requires IsExp2(e) && slack >= 0.0 && x + 1 < n && RowOk(r) && t0 % 2 == 0 && n % 2 == 0 && n >= 4 && t0 + n <= T.MaxTiles(r.Block())
    requires Between(e, r, d, t0, x, o, m, l * owed, h)
    requires |ms| == x + 1 && ms[x] == m && ExponentsBounded(slack, r, d, t0, ms) && MaximaReached(floor, r, d, t0, ms)
    ensures Between(e, r, d, t0, x + 1, o', m', l' * owed', h')
    ensures |ms'| == x + 2 && ms'[x + 1] == m' && ExponentsBounded(slack, r, d, t0, ms') && MaximaReached(floor, r, d, t0, ms')
  {
    hide IsExp2, RowOk, SeenTile, Between, RowMax, ExponentsBounded, MaximaReached;
    o', m', l', owed', h' := EpilogueStep(e, r, d, t0, n, x, o, m, l, owed, h);
    EagerBound(slack, RowMax(SeenTile(r, d, t0 + x + 1)), m');
    OneMoreMaximum(slack, floor, r, d, t0, ms, m');
    ms' := ms + [m'];
  }

  lemma NoMaxima(slack: real, floor: real, r: Row, d: Data, t0: nat)
    ensures ExponentsBounded(slack, r, d, t0, []) && MaximaReached(floor, r, d, t0, [])
  {
  }

  lemma NothingOwed(e: real -> real, r: Row, d: Data, t0: nat, x: nat, o: real, m: real, l: real, h: HalfDone, owed: real)
    requires Between(e, r, d, t0, x, o, m, l, h) && owed == 1.0
    ensures Between(e, r, d, t0, x, o, m, l * owed, h)
  {
    hide Started, Mass, Acc, Span;
    assert l * owed == l;
  }

  /** Epilogue clusters 11 to 13 for the last tile: both exp2 passes, the row sum, the last product. */
  method LastTile(e: real -> real, r: Row, d: Data, t0: nat, n: nat, o: real, m: real, l: real, owed: real, h: HalfDone)
      returns (o': real, l': real)
    requires n > 0 && Between(e, r, d, t0, n - 1, o, m, l * owed, h)
    ensures o' == Acc(e, Span(r, d, t0, n), m) && l' == Mass(e, Span(r, d, t0, n), m)
  {
    hide SeenTile, Started, Probs, Mass, Acc, Span, VTile;
    NextSpan(r, d, t0, n - 1);
    VTileIs(r, d, t0 + n - 1);
    ghost var pending, done := SeenTile(r, d, t0 + n - 1), Span(r, d, t0, n - 1);
    var paid := l * owed;
    var p: seq<real>;
    p, l' := FinishSoftmax(e, h, paid, pending, m);
    Concat(e, done, pending, m);
    o' := Pv(e, p, VTile(d, t0 + n - 1), o, pending, done, m);
  }

  lemma EmptySpan(e: real -> real, r: Row, d: Data, t0: nat, m: real)
    ensures Mass(e, Span(r, d, t0, 0), m) == 0.0 && Acc(e, Span(r, d, t0, 0), m) == 0.0
  {
  }

  // ------------------------------------------------------------------------ output

  /** Folding an attention sink into the final state. */
  method FoldSink(e: real -> real, o: real, m: real, l: real, sink: real) returns (o': real, m': real, l': real)
    requires IsExp2(e)
    ensures m' >= m && m' >= sink && (m' == m || m' == sink) && o' == o * e(m - m') && l' == l * e(m - m') + e(sink - m')
  {
    m' := if m <= sink then sink else m;
    var corr := e(m - m');
    o' := o * corr;
    l' := l * corr + e(sink - m');
  }

  lemma SinkFolded(e: real -> real, ks: seq<Key>, m: real, sink: real, m': real, l: real, o: real)
    requires IsExp2(e) && l == Mass(e, ks, m) * e(m - m') + e(sink - m') && o == Acc(e, ks, m) * e(m - m')
    ensures o * SafeInverse(l) == DirectWithSink(e, ks, sink)
  {
    hide IsExp2, Mass, Acc, SafeInverse;
    Moved(e, ks, m, m');
    Moved(e, ks, 0.0, m');
    SinkMass(e, sink, m');
    ExpPositive(e, 0.0 - m');
    ExpPositive(e, sink);
    MassNonneg(e, ks, 0.0);
    var w, a, b := e(0.0 - m'), Acc(e, ks, 0.0), Mass(e, ks, 0.0) + e(sink);
    assert l == w * b && o == w * a;
    Quotient(1.0, w, a, b, l, o);
  }

  lemma SinkMass(e: real -> real, sink: real, m: real)
    requires IsExp2(e)
    ensures e(sink - m) == e(0.0 - m) * e(sink)
  {
    assert Adds(e, 0.0 - m, sink);
    assert (0.0 - m) + sink == sink - m;
  }

  /** Blocks that end before the first diagonal do not run the pipeline: their output is zeroed. */
  predicate Inactive(r: Row) {
    r.causal && r.cross && r.Block().qStart + r.Block().rows + r.Delta() <= 0
  }

  lemma InactiveSums(e: real -> real, r: Row, d: Data, m: real)
    requires IsExp2(e) && RowOk(r) && Inactive(r)
    ensures !HasLive(AllKeys(r, d)) && Mass(e, AllKeys(r, d), m) == 0.0 && Acc(e, AllKeys(r, d), m) == 0.0
  {
    hide IsExp2, HasLive, Mass, Acc;
    assert AllKeys(r, d) == Keys(r, d, 0, r.seqlenKv);
    NoneVisible(r, d, 0, r.seqlenKv);
    MassNonneg(e, AllKeys(r, d), m);
  }

  lemma NothingVisible(e: real -> real, r: Row, d: Data)
    requires !HasLive(AllKeys(r, d))
    ensures Direct(e, AllKeys(r, d)) == 0.0
  {
  }

  lemma OnlySink(e: real -> real, r: Row, d: Data, sink: real)
    requires IsExp2(e) && Mass(e, AllKeys(r, d), 0.0) == 0.0 && Acc(e, AllKeys(r, d), 0.0) == 0.0
    ensures DirectWithSink(e, AllKeys(r, d), sink) == 0.0
  {
    hide Mass, Acc;
  }

  /** MAIN. The pipelined row of an unsplit block, with its lazy or eager rescales under any ballots and
      its deferred row sums, is softmax attention over exactly the keys the row may see. */
  method AttentionRow(e: real -> real, lazy: bool, threshold: real, floor: real, peersBelow: nat -> bool, r: Row, d: Data) returns (out: real)
    requires IsExp2(e) && threshold >= 0.0 && RowOk(r)
    ensures out == Direct(e, AllKeys(r, d))
  {
    hide IsExp2, Direct, RowOk, Mass, Acc, Span;
    if Inactive(r) {
      InactiveSums(e, r, d, 0.0);
      NothingVisible(e, r, d);
      return 0.0;
    }
    var n := T.MaxTiles(r.Block());
    T.TilesFitPages(r.Block(), r.seqlenKv);
    var o, m, l, _ := SegmentRow(e, lazy, threshold, floor, peersBelow, r, d, 0, n);
    out := o * SafeInverse(l);
    Normalised(e, Span(r, d, 0, n), m, 1.0, l, o);
    UnsplitCovers(r);
    CoveredDirect(e, r, d, n);
  }

  /** MAIN. The same with an attention sink, which is folded in once, before normalising. */
  method AttentionRowWithSink(e: real -> real, lazy: bool, threshold: real, floor: real, peersBelow: nat -> bool, r: Row, d: Data,
                              sink: real) returns (out: real)
    requires IsExp2(e) && threshold >= 0.0 && RowOk(r)
    ensures out == DirectWithSink(e, AllKeys(r, d), sink)
  {
    hide IsExp2, DirectWithSink, RowOk, Mass, Acc, Span, Covers, AllKeys, SafeInverse;
    if Inactive(r) {
      InactiveSums(e, r, d, 0.0);
      OnlySink(e, r, d, sink);
      return 0.0;
    }
    var n := T.MaxTiles(r.Block());
    T.TilesFitPages(r.Block(), r.seqlenKv);
    var o, m, l, _ := SegmentRow(e, lazy, threshold, floor, peersBelow, r, d, 0, n);
    UnsplitCovers(r);
    CoveredSums(e, r, d, n, m);
    ghost var m0 := m;
    o, m, l := FoldSink(e, o, m, l, sink);
    SinkFolded(e, AllKeys(r, d), m0, sink, m, l, o);
    out := o * SafeInverse(l);
  }

  /** MAIN. The pipelined row refines the generic kernel's simple loop: same output on the same row, whatever the
      rescale setting, the ballots and the block sizes. */
  method RefinesSimpleLoop(e: real -> real, lazy: bool, threshold: real, floor: real, peersBelow: nat -> bool, r: Row, d: Data,
                           b: G.Block, subtiles: nat) returns (pipelined: real, simple: real)
    requires IsExp2(e) && threshold >= 0.0 && RowOk(r) && G.Fits(r, b) && subtiles > 0
    ensures pipelined == simple
  {
    hide *;
    pipelined := AttentionRow(e, lazy, threshold, floor, peersBelow, r, d);
    simple := G.AttentionRow(e, floor, r, d, b, subtiles);
  }
}
