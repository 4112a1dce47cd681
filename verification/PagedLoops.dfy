/** How the paged FP8 kernel splits its pair loop: a first pair, fast loops once a wave has
    sealed its maximum, slow loops otherwise, each cut where V byte masks become necessary.
    Waves choose their loops independently; this module shows that they agree on the pairs. */
module PagedLoops {

  const BLOCK_N: nat := 64

  /** One call of the pair iteration and the compile-time flags of its loop. */
  datatype Call = Call(j: int, doMask: bool, skipMax: bool, init: bool, maskV: bool)

  /** `bounded`: the kernel may seal; `segmented`: V is 192 wide and stored at once;
      `maskPrefix`: the masked loop body also serves the prefix. */
  datatype Shape = Shape(t0: nat, tEnd: nat, seqlenKv: nat, bounded: bool, segmented: bool, maskPrefix: bool, pageOne: bool)

  /** What one wave finds at run time: whether its bound is safe after the first pair, and
      its first query row's diagonal q_start + delta. */
  datatype WaveChoice = WaveChoice(sealed: bool, diagonal: int)

  predicate ShapeOk(c: Shape) {
    c.t0 % 2 == 0 && c.tEnd % 2 == 0 && c.t0 <= c.tEnd
  }

  function Min(a: int, b: int): int { if a < b then a else b }
  function Max(a: int, b: int): int { if a < b then b else a }

  /** Tiles between the pair an iteration scores and the V pair it stores. */
  function Ahead(c: Shape): nat { if c.segmented then 4 else 2 }

  function VPrefixEnd(c: Shape): int {
    if c.pageOne then c.tEnd else Max(0, c.seqlenKv / (2 * BLOCK_N) * 2 - Ahead(c))
  }

  function FirstEnd(c: Shape): int { Min(c.tEnd, c.t0 + 2) }
  function FastEnd(c: Shape, w: WaveChoice): int { if w.sealed then c.tEnd else FirstEnd(c) }
  function FastPrefixEnd(c: Shape, w: WaveChoice): int { Min(FastEnd(c, w), Max(FirstEnd(c), VPrefixEnd(c))) }
  function SlowStart(c: Shape, w: WaveChoice): int { if w.sealed then c.tEnd else FirstEnd(c) }
  function SlowPrefixEnd(c: Shape, w: WaveChoice): int { Min(c.tEnd, Max(SlowStart(c, w), VPrefixEnd(c))) }

  function PrefixEnd(c: Shape, w: WaveChoice): int {
    var e := if c.maskPrefix then VPrefixEnd(c) else Min(w.diagonal / (2 * BLOCK_N) * 2, VPrefixEnd(c));
    Min(c.tEnd, Max(c.t0, e))
  }

  /** The calls of one loop `for j in range(from, upto, 2)`. */
  function Loop(from: int, upto: int, doMask: bool, skipMax: bool, init: bool, maskV: bool): seq<Call>
    decreases upto - from
  {
    if from >= upto then [] else [Call(from, doMask, skipMax, init, maskV)] + Loop(from + 2, upto, doMask, skipMax, init, maskV)
  }

  /** All calls a wave makes, in order. */
  function Plan(c: Shape, w: WaveChoice): seq<Call> {
    if c.bounded then
      Loop(c.t0, FirstEnd(c), true, false, true, true)
      + Loop(FirstEnd(c), FastPrefixEnd(c, w), true, true, false, false)
      + Loop(FastPrefixEnd(c, w), FastEnd(c, w), true, true, false, true)
      + Loop(SlowStart(c, w), SlowPrefixEnd(c, w), true, false, false, false)
      + Loop(SlowPrefixEnd(c, w), c.tEnd, true, false, false, true)
    else
      Loop(c.t0, PrefixEnd(c, w), c.maskPrefix, false, false, false)
      + Loop(PrefixEnd(c, w), c.tEnd, true, false, false, true)
  }

  /** The pairs from, from+2, .. to-2 once each and in order. */
  predicate InOrder(calls: seq<Call>, from: int, upto: int) {
    && 2 * |calls| == upto - from
    && forall p :: 0 <= p < |calls| ==> calls[p].j == from + 2 * p
  }

  lemma {:induction false} LoopInOrder(from: int, upto: int, doMask: bool, skipMax: bool, init: bool, maskV: bool)
    requires from <= upto && from % 2 == upto % 2
    ensures InOrder(Loop(from, upto, doMask, skipMax, init, maskV), from, upto)
    decreases upto - from
  {
    if from < upto {
      LoopInOrder(from + 2, upto, doMask, skipMax, init, maskV);
    }
  }

  lemma {:induction false} CallOfLoop(from: int, upto: int, doMask: bool, skipMax: bool, init: bool, maskV: bool, k: Call)
    requires from % 2 == upto % 2 && k in Loop(from, upto, doMask, skipMax, init, maskV)
    ensures from <= k.j < upto && k.j % 2 == from % 2
    ensures k == Call(k.j, doMask, skipMax, init, maskV)
    decreases upto - from
  {
    if k != Call(from, doMask, skipMax, init, maskV) {
      CallOfLoop(from + 2, upto, doMask, skipMax, init, maskV, k);
    }
  }

  lemma Joined(a: seq<Call>, b: seq<Call>, from: int, mid: int, upto: int)
    requires InOrder(a, from, mid) && InOrder(b, mid, upto)
    ensures InOrder(a + b, from, upto)
  {
  }

  /** All loop bounds are even and lie in order between t0 and tEnd. */
  lemma Bounds(c: Shape, w: WaveChoice)
    requires ShapeOk(c)
    ensures c.t0 <= FirstEnd(c) <= FastPrefixEnd(c, w) <= FastEnd(c, w) <= c.tEnd
    ensures FirstEnd(c) <= SlowStart(c, w) <= SlowPrefixEnd(c, w) <= c.tEnd && FastEnd(c, w) == SlowStart(c, w)
    ensures c.t0 <= PrefixEnd(c, w) <= c.tEnd
    ensures FirstEnd(c) % 2 == FastPrefixEnd(c, w) % 2 == FastEnd(c, w) % 2 == 0
    ensures SlowStart(c, w) % 2 == SlowPrefixEnd(c, w) % 2 == PrefixEnd(c, w) % 2 == 0
  {
  }

  /** MAIN. Whatever a wave decides, its loops make the same pairs t0, t0+2, .., tEnd-2, in
      order: all waves run the same number of iterations, hence of barriers. */
  lemma PlanInOrder(c: Shape, w: WaveChoice)
    requires ShapeOk(c)
    ensures InOrder(Plan(c, w), c.t0, c.tEnd)
  {
    Bounds(c, w);
    var e0, e1, e2, s0, s1, pe := FirstEnd(c), FastPrefixEnd(c, w), FastEnd(c, w), SlowStart(c, w), SlowPrefixEnd(c, w), PrefixEnd(c, w);
    if c.bounded {
      var a, b, d := Loop(c.t0, e0, true, false, true, true), Loop(e0, e1, true, true, false, false), Loop(e1, e2, true, true, false, true);
      var x, y := Loop(s0, s1, true, false, false, false), Loop(s1, c.tEnd, true, false, false, true);
      LoopInOrder(c.t0, e0, true, false, true, true);
      LoopInOrder(e0, e1, true, true, false, false);
      LoopInOrder(e1, e2, true, true, false, true);
      LoopInOrder(s0, s1, true, false, false, false);
      LoopInOrder(s1, c.tEnd, true, false, false, true);
      Joined(a, b, c.t0, e0, e1);
      Joined(a + b, d, c.t0, e1, e2);
      Joined(a + b + d, x, c.t0, s0, s1);
      Joined(a + b + d + x, y, c.t0, s1, c.tEnd);
    } else {
      LoopInOrder(c.t0, pe, c.maskPrefix, false, false, false);
      LoopInOrder(pe, c.tEnd, true, false, false, true);
      Joined(Loop(c.t0, pe, c.maskPrefix, false, false, false), Loop(pe, c.tEnd, true, false, false, true), c.t0, pe, c.tEnd);
    }
  }

  /** Which loop a call comes from, and so what its flags say about its pair. */
  lemma CallFrom(c: Shape, w: WaveChoice, k: Call)
    requires ShapeOk(c) && k in Plan(c, w)
    ensures c.t0 <= k.j < c.tEnd && k.j % 2 == 0
    ensures !k.doMask ==> !c.bounded && !c.maskPrefix && k.j < w.diagonal / (2 * BLOCK_N) * 2 && k.j < VPrefixEnd(c)
    ensures k.skipMax <==> c.bounded && w.sealed && k.j > c.t0
    ensures k.init <==> c.bounded && k.j == c.t0
    ensures !k.maskV <==> k.j < if c.bounded && k.j == c.t0 then c.t0 else if c.bounded then VPrefixEnd(c) else PrefixEnd(c, w)
  {
    Bounds(c, w);
    var e0, e1, e2, s0, s1, pe := FirstEnd(c), FastPrefixEnd(c, w), FastEnd(c, w), SlowStart(c, w), SlowPrefixEnd(c, w), PrefixEnd(c, w);
    if !c.bounded {
      if k in Loop(c.t0, pe, c.maskPrefix, false, false, false) {
        CallOfLoop(c.t0, pe, c.maskPrefix, false, false, false, k);
      } else {
        CallOfLoop(pe, c.tEnd, true, false, false, true, k);
      }
    } else if k in Loop(c.t0, e0, true, false, true, true) {
      CallOfLoop(c.t0, e0, true, false, true, true, k);
    } else if k in Loop(e0, e1, true, true, false, false) {
      CallOfLoop(e0, e1, true, true, false, false, k);
    } else if k in Loop(e1, e2, true, true, false, true) {
      CallOfLoop(e1, e2, true, true, false, true, k);
    } else if k in Loop(s0, s1, true, false, false, false) {
      CallOfLoop(s0, s1, true, false, false, false, k);
    } else {
      CallOfLoop(s1, c.tEnd, true, false, false, true, k);
    }
  }

  /** MAIN. An iteration without V byte masks stores no token at or past seqlen_kv. */
  lemma UnmaskedStoresAreValid(c: Shape, w: WaveChoice, k: Call, token: int)
    requires ShapeOk(c) && k in Plan(c, w) && !k.maskV && !c.pageOne
    requires var tile := if c.segmented then k.j + 4 else k.j + 2; tile * BLOCK_N <= token < (tile + 2) * BLOCK_N
    ensures token < c.seqlenKv
  {
    CallFrom(c, w, k);
  }

  /** MAIN. An iteration without causal masks scores only keys on or below the diagonal of
      every row of its wave, and (pages of more than one token) only keys before seqlen_kv. */
  lemma UnmaskedScoresAreVisible(c: Shape, w: WaveChoice, k: Call, row: nat, key: int)
    requires ShapeOk(c) && k in Plan(c, w) && !k.doMask
    requires k.j * BLOCK_N <= key < (k.j + 2) * BLOCK_N
    ensures key <= w.diagonal + row
    ensures !c.pageOne ==> key < c.seqlenKv
  {
    CallFrom(c, w, k);
  }
}
