/** The paged FP8 row: its loops, chosen at run time, and the sealed fast path, on which a wave stops
    looking for maxima because no later key can move the one it has. */
module SealedRow {
  import opened Fp8Row
  import opened Masks
  import opened Rows
  import opened ScaledSoftmax
  import opened Softmax
  import L = PagedLoops
  import T = Tiles

  // ---------------------------------------------------------------- the bound on scores

  function Abs(x: real): real { if x < 0.0 then 0.0 - x else x }

  function Magnitudes(q: seq<real>): seq<real> { seq(|q|, i requires 0 <= i < |q| => Abs(q[i])) }

  function Largest(n: nat): seq<real> { seq(n, i => 448.0) }

  /** Twice the score of the largest key against |q|. */
  function UpperBound(q: seq<real>): real { 2.0 * Dot(Largest(|q|), Magnitudes(q)) }

  /** Finite e4m3 values. */
  predicate IsE4m3Row(k: seq<real>) { forall i :: 0 <= i < |k| ==> -448.0 <= k[i] <= 448.0 }

  lemma {:induction false} ScoreIsBounded(k: seq<real>, q: seq<real>)
    requires |k| == |q| && IsE4m3Row(k)
    ensures Dot(k, q) <= Dot(Largest(|q|), Magnitudes(q)) && 0.0 <= Dot(Largest(|q|), Magnitudes(q))
    decreases |q|
  {
    if q != [] {
      var n := |q| - 1;
      ScoreIsBounded(k[..n], q[..n]);
      assert Largest(|q|)[..n] == Largest(n) && Magnitudes(q)[..n] == Magnitudes(q[..n]);
      TermIsBounded(k[n], q[n]);
    }
  }

  lemma TermIsBounded(k: real, q: real)
    requires -448.0 <= k <= 448.0
    ensures Mul(k, q) <= Mul(448.0, Abs(q)) && Mul(448.0, Abs(q)) >= 0.0
  {
  }

  /** The raw logits are products of the query row with e4m3 key rows. */
  ghost predicate ScoresFrom(d: Data, q: seq<real>, keys: nat -> seq<real>) {
    forall t: nat :: |keys(t)| == |q| && IsE4m3Row(keys(t)) && d.score(t) == Dot(keys(t), q)
  }

  ghost predicate ScoresBelow(d: Data, ub: real) { forall t: nat :: d.score(t) <= ub }

  lemma UpperBoundHolds(d: Data, q: seq<real>, keys: nat -> seq<real>)
    requires ScoresFrom(d, q, keys)
    ensures ScoresBelow(d, UpperBound(q))
  {
    forall t: nat ensures d.score(t) <= UpperBound(q) {
      ScoreIsBounded(keys(t), q);
    }
  }

  /** MAIN. The bound is 2 * 448 times the sum of the query row's magnitudes. */
  lemma UpperBoundIs(q: seq<real>)
    ensures UpperBound(q) == 896.0 * Sum(Magnitudes(q))
  {
    LargestDot(q);
  }

  lemma {:induction false} LargestDot(q: seq<real>)
    ensures Dot(Largest(|q|), Magnitudes(q)) == 448.0 * Sum(Magnitudes(q))
    decreases |q|
  {
    if q != [] {
      var n := |q| - 1;
      LargestDot(q[..n]);
      assert Largest(|q|)[..n] == Largest(n) && Magnitudes(q)[..n] == Magnitudes(q[..n]);
    }
  }

  /** _query_bound_is_safe for one lane. */
  predicate Seals(c: Params, ub: real, m: Score) {
    m.Fin? && Mul(c.scale, ub - m.s) <= c.threshold && c.scale > 0.0
  }

  /** MAIN. The safe test asks no more than it must: it passes exactly when the scale is positive and a pair with the
      bound itself as its maximum would take the no-op branch. */
  lemma SealTestIsWorstCase(c: Params, ub: real, m: Score)
    ensures Seals(c, ub, m) <==> c.scale > 0.0 && Below(c, m, Fin(ub))
  {
  }

  predicate AtMost(s: Score, x: real) { s.NegInf? || s.s <= x }

  lemma {:induction false} MaxAtMost(ks: seq<Key>, x: real)
    requires forall i :: 0 <= i < |ks| ==> AtMost(ks[i].score, x)
    ensures AtMost(RowMax(ks), x)
    decreases |ks|
  {
    if ks != [] {
      MaxAtMost(ks[..|ks| - 1], x);
    }
  }

  lemma TileAtMost(r: Row, d: Data, j: nat, doMask: bool, t: nat, ub: real)
    requires ScoresBelow(d, ub)
    ensures AtMost(RowMax(Masked(r, d, j, doMask, t)), ub)
  {
    hide RowMax;
    var ks := Masked(r, d, j, doMask, t);
    forall i | 0 <= i < |ks| ensures AtMost(ks[i].score, ub) {
      assert RawTile(d, t)[i] == Key(Fin(d.score(64 * t + i)), d.value(64 * t + i));
    }
    MaxAtMost(ks, ub);
  }

  /** A sealed lane is within the threshold at every later pair. */
  lemma SealedIsBelow(c: Params, r: Row, d: Data, j: nat, doMask: bool, ub: real, m: Score)
    requires ScoresBelow(d, ub) && Seals(c, ub, m) && c.threshold >= 0.0 && (r.causal ==> c.floor <= m.s)
    ensures Below(c, m, PairMax(c, r, d, j, doMask))
  {
    hide RowMax, Masked, Mul, ScoresBelow;
    TileAtMost(r, d, j, doMask, j, ub);
    TileAtMost(r, d, j, doMask, j + 1, ub);
    var tileMax := PairMax(c, r, d, j, doMask);
    if tileMax.Fin? {
      if tileMax.s <= ub {
        MulOrder(c.scale, tileMax.s - m.s, ub - m.s);
      } else {
        MulOrder(c.scale, tileMax.s - m.s, 0.0);
        MulZero(c.scale);
      }
    }
  }

  lemma MulOrder(x: real, a: real, b: real)
    requires x > 0.0 && a <= b
    ensures Mul(x, a) <= Mul(x, b)
  {
    NonNegative(x, b - a);
    assert Mul(x, b) - Mul(x, a) == Mul(x, b - a);
  }

  // --------------------------------------------------- sealed runs against slow runs

  /** The same calls, looking for the maximum every time. */
  function Slow(calls: seq<L.Call>): seq<L.Call> {
    seq(|calls|, i requires 0 <= i < |calls| => calls[i].(skipMax := false))
  }

  /** The wave's rows: one job and one bound per lane, in lockstep over the same calls. */
  datatype Lane = Lane(g: Job, ub: real)

  /** A first pair that initialises, then pairs that skip the maximum. */
  predicate FastCalls(calls: seq<L.Call>) {
    && calls != [] && Calls(calls) && calls[0].init && !calls[0].skipMax
    && forall p :: 1 <= p < |calls| ==> calls[p].skipMax && !calls[p].init
  }

  /** After its first pair the lane has sealed. */
  ghost predicate LaneSealed(lane: Lane, calls: seq<L.Call>)
    requires FastCalls(calls)
  {
    var m := Run(lane.g, calls[..1]).m;
    && lane.g.c.lazy && lane.g.c.threshold >= 0.0
    && ScoresBelow(lane.g.d, lane.ub) && Seals(lane.g.c, lane.ub, m)
  }

  ghost predicate LaneBelow(lane: Lane, calls: seq<L.Call>, p: int)
    requires FastCalls(calls) && 1 <= p < |calls| && Calls(Slow(calls[..p]))
  {
    Below(lane.g.c, Run(lane.g, Slow(calls[..p])).m, PairMax(lane.g.c, lane.g.r, lane.g.d, calls[p].j, calls[p].doMask))
  }

  /** In the slow run each lane's ballot at pair p is the verdict of all the other lanes. */
  ghost predicate Ballots(wave: seq<Lane>, calls: seq<L.Call>)
    requires FastCalls(calls)
  {
    SlowCalls(calls);
    forall i, p :: 0 <= i < |wave| && 1 <= p < |calls| ==>
      wave[i].g.peersBelow(calls[p].j) == forall k :: 0 <= k < |wave| && k != i ==> LaneBelow(wave[k], calls, p)
  }

  lemma SlowCalls(calls: seq<L.Call>)
    requires Calls(calls)
    ensures forall p {:trigger calls[..p]} :: 0 <= p <= |calls| ==> Calls(calls[..p]) && Calls(Slow(calls[..p]))
  {
  }

  lemma SlowStep(calls: seq<L.Call>, p: nat)
    requires Calls(calls) && p < |calls|
    ensures Slow(calls[..p + 1]) == Slow(calls[..p]) + [calls[p].(skipMax := false)] && calls[..p + 1] == calls[..p] + [calls[p]]
  {
  }

  /** The state after the first pair is floored. */
  lemma FirstMax(lane: Lane, calls: seq<L.Call>)
    requires FastCalls(calls)
    ensures Calls(calls[..1]) && Calls(Slow(calls[..1])) && Run(lane.g, Slow(calls[..1])) == Run(lane.g, calls[..1])
    ensures var m := Run(lane.g, calls[..1]).m; lane.g.r.causal ==> m.Fin? && lane.g.c.floor <= m.s
  {
    hide Subtile, Masked, RowMax, VTile, Run;
    SlowCalls(calls);
    assert Slow(calls[..1]) == calls[..1] == [] + [calls[0]];
    OneMoreCall(lane.g, [], calls[0]);
    KeepsMax(lane.g, calls[0], Run(lane.g, []));
  }

  /** One lane, one pair: if the lane and its peers are below, looking for the maximum changes nothing. */
  lemma SkipIsNoOp(g: Job, k: L.Call, st: State)
    requires k.j >= 0 && k.skipMax && !k.init && g.c.lazy && g.peersBelow(k.j) && Below(g.c, st.m, PairMax(g.c, g.r, g.d, k.j, k.doMask))
    ensures Iterate(g, k.(skipMax := false), st) == Iterate(g, k, st) && Iterate(g, k, st).m == st.m
  {
    hide Subtile, Masked, PairMax, VTile, Below;
    KeepsMax(g, k, st);
    assert Prepared(g, k.(skipMax := false), st) == Prepared(g, k, st) == st;
  }

  ghost predicate SameSoFar(lane: Lane, calls: seq<L.Call>, p: int)
    requires FastCalls(calls) && 1 <= p <= |calls| && Calls(calls[..p]) && Calls(Slow(calls[..p]))
  {
    && Run(lane.g, Slow(calls[..p])) == Run(lane.g, calls[..p])
    && Run(lane.g, calls[..p]).m == Run(lane.g, calls[..1]).m
  }

  lemma LaneStaysBelow(lane: Lane, calls: seq<L.Call>, p: nat)
    requires FastCalls(calls) && LaneSealed(lane, calls) && 1 <= p < |calls|
    requires Calls(calls[..p]) && Calls(Slow(calls[..p])) && SameSoFar(lane, calls, p)
    ensures LaneBelow(lane, calls, p)
  {
    hide Run, PairMax, Below, Seals, ScoresBelow;
    FirstMax(lane, calls);
    SealedIsBelow(lane.g.c, lane.g.r, lane.g.d, calls[p].j, calls[p].doMask, lane.ub, Run(lane.g, calls[..1]).m);
  }

  lemma LaneStep(lane: Lane, calls: seq<L.Call>, p: nat)
    requires FastCalls(calls) && LaneSealed(lane, calls) && 1 <= p < |calls|
    requires Calls(calls[..p]) && Calls(Slow(calls[..p])) && SameSoFar(lane, calls, p) && lane.g.peersBelow(calls[p].j)
    ensures Calls(calls[..p + 1]) && Calls(Slow(calls[..p + 1])) && SameSoFar(lane, calls, p + 1)
  {
    hide Run, PairMax, Below, Seals, ScoresBelow, Iterate, Slow;
    SlowCalls(calls);
    SlowStep(calls, p);
    LaneStaysBelow(lane, calls, p);
    var g, st := lane.g, Run(lane.g, calls[..p]);
    OneMoreCall(g, calls[..p], calls[p]);
    OneMoreCall(g, Slow(calls[..p]), calls[p].(skipMax := false));
    SkipIsNoOp(g, calls[p], st);
  }

  /** MAIN. A sealed wave loses nothing: every lane's run without maxima has, after every pair, the same
      maximum, sum and output as the run that looks for the maximum each time, because there
      every lane takes the no-op branch of the correction. */
  lemma {:induction false} SealedRunIsSlowRun(wave: seq<Lane>, calls: seq<L.Call>, p: nat)
    requires FastCalls(calls) && 1 <= p <= |calls| && Ballots(wave, calls)
    requires forall i :: 0 <= i < |wave| ==> LaneSealed(wave[i], calls)
    ensures Calls(calls[..p]) && Calls(Slow(calls[..p]))
    ensures forall i :: 0 <= i < |wave| ==> SameSoFar(wave[i], calls, p)
    decreases p
  {
    hide Run, LaneBelow, LaneSealed, Slow, FastCalls, SameSoFar;
    Prefixes(calls, p);
    if p == 1 {
      forall i | 0 <= i < |wave| ensures SameSoFar(wave[i], calls, 1) {
        SameAtFirst(wave[i], calls);
      }
    } else {
      SealedRunIsSlowRun(wave, calls, p - 1);
      forall i | 0 <= i < |wave| ensures LaneBelow(wave[i], calls, p - 1) {
        LaneStaysBelow(wave[i], calls, p - 1);
      }
      forall i | 0 <= i < |wave| ensures SameSoFar(wave[i], calls, p) {
        assert wave[i].g.peersBelow(calls[p - 1].j);
        LaneStep(wave[i], calls, p - 1);
      }
    }
  }

  lemma Prefixes(calls: seq<L.Call>, p: nat)
    requires FastCalls(calls) && 1 <= p <= |calls|
    ensures Calls(calls[..p]) && Calls(Slow(calls[..p])) && Calls(calls[..p - 1]) && Calls(Slow(calls[..p - 1]))
    ensures Calls(calls[..1]) && Calls(Slow(calls[..1]))
  {
    SlowCalls(calls);
  }

  lemma SameAtFirst(lane: Lane, calls: seq<L.Call>)
    requires FastCalls(calls) && Calls(calls[..1]) && Calls(Slow(calls[..1]))
    ensures SameSoFar(lane, calls, 1)
  {
    hide Run;
    FirstMax(lane, calls);
  }

  // ---------------------------------------------------------------------- the row

  /** The launch and the row agree: one causal segment over all tiles. */
  predicate Matches(g: Job, c: L.Shape) {
    g.r.causal && c.t0 == 0 && c.tEnd == T.MaxTiles(g.r.Block()) && c.seqlenKv == g.r.seqlenKv
  }

  lemma PlanIsOk(g: Job, c: L.Shape, w: L.WaveChoice)
    requires Matches(g, c) && w.diagonal == g.r.WaveStart() + g.r.Delta()
    ensures L.ShapeOk(c) && CallsOk(g.r, 0, L.Plan(c, w)) && Calls(L.Plan(c, w)) && 2 * |L.Plan(c, w)| == T.MaxTiles(g.r.Block())
  {
    hide L.Plan;
    AtLeastFour(g.r);
    L.PlanInOrder(c, w);
    forall p | 0 <= p < |L.Plan(c, w)| ensures CallOk(g.r, 0, L.Plan(c, w)[p]) {
      L.CallFrom(c, w, L.Plan(c, w)[p]);
    }
  }

  /** MAIN. The paged row, with whatever loops its wave takes, is softmax attention on the scaled logits of
      exactly the visible keys, times the value scale; and its calls are the planned ones. */
  method PagedRow(g: Job, c: L.Shape, q: seq<real>, peersSafe: bool) returns (out: real, ghost w: L.WaveChoice, ghost calls: seq<L.Call>)
    requires IsExp2(g.e) && RowOk(g.r) && Matches(g, c)
    ensures out == Attention(g)
    ensures calls == L.Plan(c, w) && w.diagonal == g.r.WaveStart() + g.r.Delta()
    ensures c.bounded ==> Calls(calls[..1]) && (w.sealed <==> peersSafe && Seals(g.c, UpperBound(q), Run(g, calls[..1]).m))
  {
    hide IsExp2, RowOk, Run, Output, Attention, T.MaxTiles, CallsOk, Calls, Seals, UpperBound, L.FirstEnd, L.FastEnd, L.FastPrefixEnd,
         L.SlowStart, L.SlowPrefixEnd, L.PrefixEnd, L.VPrefixEnd, L.Loop;
    PlanIsOk(g, c, L.WaveChoice(true, g.r.WaveStart() + g.r.Delta()));
    NoCalls(g);
    NoneIsCalls();
    var st := START;
    calls := [];
    AtLeastFour(g.r);
    if c.bounded {
      FirstLoop(c);
      var firstEnd := L.FirstEnd(c);
      st := PairLoop(g, c.t0, firstEnd, true, false, true, true, st, calls);
      calls := calls + L.Loop(c.t0, firstEnd, true, false, true, true);
      var sealed := peersSafe && Seals(g.c, UpperBound(q), st.m);
      var choice := L.WaveChoice(sealed, g.r.WaveStart() + g.r.Delta());
      w := choice;
      L.Bounds(c, choice);
      ghost var first := calls;
      var fastEnd, fastPrefixEnd := L.FastEnd(c, choice), L.FastPrefixEnd(c, choice);
      st := PairLoop(g, firstEnd, fastPrefixEnd, true, true, false, false, st, calls);
      calls := calls + L.Loop(firstEnd, fastPrefixEnd, true, true, false, false);
      st := PairLoop(g, fastPrefixEnd, fastEnd, true, true, false, true, st, calls);
      calls := calls + L.Loop(fastPrefixEnd, fastEnd, true, true, false, true);
      var slowStart, slowPrefixEnd := L.SlowStart(c, choice), L.SlowPrefixEnd(c, choice);
      st := PairLoop(g, slowStart, slowPrefixEnd, true, false, false, false, st, calls);
      calls := calls + L.Loop(slowStart, slowPrefixEnd, true, false, false, false);
      st := PairLoop(g, slowPrefixEnd, c.tEnd, true, false, false, true, st, calls);
      calls := calls + L.Loop(slowPrefixEnd, c.tEnd, true, false, false, true);
      assert calls[..1] == first;
    } else {
      var choice := L.WaveChoice(false, g.r.WaveStart() + g.r.Delta());
      w := choice;
      L.Bounds(c, choice);
      var prefixEnd := L.PrefixEnd(c, choice);
      st := PairLoop(g, c.t0, prefixEnd, c.maskPrefix, false, false, false, st, calls);
      calls := calls + L.Loop(c.t0, prefixEnd, c.maskPrefix, false, false, false);
      st := PairLoop(g, prefixEnd, c.tEnd, true, false, false, true, st, calls);
      calls := calls + L.Loop(prefixEnd, c.tEnd, true, false, false, true);
    }
    assert calls == L.Plan(c, w);
    PlanOutput(g, c, w);
    out := Output(g.c, st);
  }

  lemma PlanOutput(g: Job, c: L.Shape, w: L.WaveChoice)
    requires IsExp2(g.e) && RowOk(g.r) && Matches(g, c) && w.diagonal == g.r.WaveStart() + g.r.Delta()
    ensures Calls(L.Plan(c, w)) && Output(g.c, Run(g, L.Plan(c, w))) == Attention(g)
  {
    hide IsExp2, RowOk, Run, Output, Attention, T.MaxTiles, CallsOk, Calls, L.Plan;
    AtLeastFour(g.r);
    PlanIsOk(g, c, w);
    RunIsAttention(g, L.Plan(c, w));
  }

  lemma NoneIsCalls()
    ensures Calls([])
  {
  }

  lemma FirstLoop(c: L.Shape)
    requires c.t0 == 0 && c.tEnd >= 2
    ensures L.FirstEnd(c) == 2 && L.Loop(c.t0, L.FirstEnd(c), true, false, true, true) == [L.Call(0, true, false, true, true)]
  {
    assert L.Loop(2, 2, true, false, true, true) == [];
  }

  // ---------------------------------------------------------- what the kernel's test gives

  /** _query_bound_is_safe for one lane, on the state that its first pair leaves. */
  ghost predicate SafeAfterFirst(g: Job, c: L.Shape, w: L.WaveChoice, ub: real) {
    var calls := L.Plan(c, w);
    |calls| >= 1 && Calls(calls[..1]) && Seals(g.c, ub, Run(g, calls[..1]).m)
  }

  lemma SealedPlanIsFast(c: L.Shape, w: L.WaveChoice)
    requires L.ShapeOk(c) && c.t0 == 0 && c.tEnd >= 2 && c.bounded && w.sealed
    ensures FastCalls(L.Plan(c, w))
  {
    hide L.Plan;
    var calls := L.Plan(c, w);
    L.PlanInOrder(c, w);
    forall p | 0 <= p < |calls| ensures calls[p].j >= 0 && (calls[p].init <==> p == 0) && (calls[p].skipMax <==> p > 0) {
      L.CallFrom(c, w, calls[p]);
    }
  }

  /** MAIN. The kernel's test on its own upper bound is all that a lane needs: the plan is a fast one and
      the lane has sealed. */
  lemma SafeTestSeals(g: Job, c: L.Shape, w: L.WaveChoice, q: seq<real>, keys: nat -> seq<real>)
    requires L.ShapeOk(c) && c.t0 == 0 && c.tEnd >= 2 && c.bounded && w.sealed
    requires ScoresFrom(g.d, q, keys) && g.c.lazy && g.c.threshold >= 0.0 && SafeAfterFirst(g, c, w, UpperBound(q))
    ensures FastCalls(L.Plan(c, w)) && LaneSealed(Lane(g, UpperBound(q)), L.Plan(c, w))
  {
    hide L.Plan, Run, Seals, UpperBound, ScoresBelow, ScoresFrom, L.ShapeOk, FastCalls;
    SealedPlanIsFast(c, w);
    UpperBoundHolds(g.d, q, keys);
  }

  /** A sealed wave's calls, looking for the maximum every time, are those of the unsealed plan. */
  lemma SlowPlanIsUnsealedPlan(c: L.Shape, w: L.WaveChoice)
    requires L.ShapeOk(c) && c.t0 == 0 && c.bounded && w.sealed
    ensures Slow(L.Plan(c, w)) == L.Plan(c, w.(sealed := false))
  {
    hide L.Plan;
    var fast, slow, w' := L.Plan(c, w), L.Plan(c, w.(sealed := false)), w.(sealed := false);
    L.PlanInOrder(c, w);
    L.PlanInOrder(c, w');
    forall p | 0 <= p < |fast| ensures fast[p].(skipMax := false) == slow[p] {
      L.CallFrom(c, w, fast[p]);
      L.CallFrom(c, w', slow[p]);
    }
  }

  /** One lane of a paged wave: its query row and the key rows that its logits come from. */
  datatype PagedLane = PagedLane(g: Job, q: seq<real>, keys: nat -> seq<real>)

  function Bounded(wave: seq<PagedLane>): seq<Lane> {
    seq(|wave|, i requires 0 <= i < |wave| => Lane(wave[i].g, UpperBound(wave[i].q)))
  }

  /** The wave seals exactly when the test passes on every lane. */
  ghost predicate BallotSeals(wave: seq<PagedLane>, c: L.Shape, w: L.WaveChoice) {
    w.sealed <==> forall i :: 0 <= i < |wave| ==> SafeAfterFirst(wave[i].g, c, w, UpperBound(wave[i].q))
  }

  ghost predicate LaneOk(lane: PagedLane) {
    ScoresFrom(lane.g.d, lane.q, lane.keys) && lane.g.c.lazy && lane.g.c.threshold >= 0.0
  }

  /** MAIN. From the kernel's own decision to its justification: a wave whose test passed on every lane's
      2 * 448 * sum |q| and that takes the fast loops ends, on every lane, with the m, l and O that the slow
      loops would have left. */
  lemma SealedWaveIsSlowWave(wave: seq<PagedLane>, c: L.Shape, w: L.WaveChoice)
    requires L.ShapeOk(c) && c.t0 == 0 && c.tEnd >= 2 && c.bounded && w.sealed && BallotSeals(wave, c, w)
    requires forall i :: 0 <= i < |wave| ==> LaneOk(wave[i])
    requires FastCalls(L.Plan(c, w)) ==> Ballots(Bounded(wave), L.Plan(c, w))
    ensures Calls(L.Plan(c, w)) && Calls(L.Plan(c, w.(sealed := false)))
    ensures forall i :: 0 <= i < |wave| ==> Run(wave[i].g, L.Plan(c, w)) == Run(wave[i].g, L.Plan(c, w.(sealed := false)))
  {
    hide L.Plan, L.ShapeOk, FastCalls, Run, UpperBound, ScoresFrom, LaneSealed, Ballots, SafeAfterFirst, Slow;
    SealedPlanIsFast(c, w);
    SlowPlanIsUnsealedPlan(c, w);
    var calls, lanes := L.Plan(c, w), Bounded(wave);
    forall i | 0 <= i < |lanes| ensures LaneSealed(lanes[i], calls) {
      SafeTestSeals(wave[i].g, c, w, wave[i].q, wave[i].keys);
    }
    WholeRun(calls);
    SealedRunIsSlowRun(lanes, calls, |calls|);
    forall i | 0 <= i < |wave| ensures Run(wave[i].g, calls) == Run(wave[i].g, Slow(calls)) {
      assert SameSoFar(lanes[i], calls, |calls|);
    }
  }

  lemma WholeRun(calls: seq<L.Call>)
    requires FastCalls(calls)
    ensures 1 <= |calls| && calls[..|calls|] == calls && Calls(calls) && Calls(Slow(calls))
  {
  }

  // ------------------------------------------------------------------- headroom again

  /** Without looking for maxima the maximum stays. */
  lemma {:induction false} FastMax(g: Job, calls: seq<L.Call>, p: nat)
    requires FastCalls(calls) && 1 <= p <= |calls|
    ensures Calls(calls[..p]) && Calls(calls[..1]) && Run(g, calls[..p]).m == Run(g, calls[..1]).m
    decreases p
  {
    hide Run, Iterate, PairMax;
    SlowCalls(calls);
    if p > 1 {
      FastMax(g, calls, p - 1);
      SlowStep(calls, p - 1);
      OneMoreCall(g, calls[..p - 1], calls[p - 1]);
      KeepsMax(g, calls[p - 1], Run(g, calls[..p - 1]));
    }
  }

  lemma BelowIsWithin(c: Params, m: Score, s: Score)
    requires c.lazy && Below(c, m, s)
    ensures Within(c, s, m)
  {
  }

  lemma FastSkipIsSafe(g: Job, calls: seq<L.Call>, ub: real, p: nat)
    requires FastCalls(calls) && LaneSealed(Lane(g, ub), calls) && p < |calls|
    ensures Calls(calls) && SkipIsSafe(g, calls, p)
  {
    hide Run, PairMax, Below, Within, Seals, ScoresBelow;
    SlowCalls(calls);
    if p > 0 {
      FastMax(g, calls, p);
      FirstMax(Lane(g, ub), calls);
      SealedIsBelow(g.c, g.r, g.d, calls[p].j, calls[p].doMask, ub, Run(g, calls[..1]).m);
      BelowIsWithin(g.c, Run(g, calls[..p]).m, PairMax(g.c, g.r, g.d, calls[p].j, calls[p].doMask));
    }
  }

  /** MAIN. No probability of a paged run overflows the e4m3 cast, sealed by the kernel's test or not. */
  lemma PagedNeverOverflows(g: Job, c: L.Shape, w: L.WaveChoice, q: seq<real>, keys: nat -> seq<real>)
    requires HeadroomOk(g.e, g.c) && RowOk(g.r) && Matches(g, c) && w.diagonal == g.r.WaveStart() + g.r.Delta()
    requires ScoresFrom(g.d, q, keys) && (c.bounded ==> g.c.lazy)
    requires c.bounded && w.sealed ==> SafeAfterFirst(g, c, w, UpperBound(q))
    ensures Calls(L.Plan(c, w)) && RunFits(g, L.Plan(c, w))
  {
    hide RowOk, CallsOk, L.Plan, Run, LaneSealed, FastCalls, RunFits, T.MaxTiles, ScoresFrom, UpperBound, SafeAfterFirst, IsExp2;
    AtLeastFour(g.r);
    PlanIsOk(g, c, w);
    var calls := L.Plan(c, w);
    if c.bounded && w.sealed { SafeTestSeals(g, c, w, q, keys); }
    forall p | 0 <= p < |calls| ensures SkipIsSafe(g, calls, p) {
      if c.bounded && w.sealed {
        FastSkipIsSafe(g, calls, UpperBound(q), p);
      } else {
        L.CallFrom(c, w, calls[p]);
      }
    }
    NothingOverflows(g, 0, calls);
  }
}
