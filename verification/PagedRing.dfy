/** The paged FP8 kernel's LDS rings: K by DMA two pairs ahead; V either staged through
    registers and stored one pair ahead, or (192-wide V) stored two pairs ahead. Each wave
    follows its own loop plan. */
module PagedRing {
  import opened Arith
  import opened Machine
  import opened Rings
  import L = PagedLoops

  /** `slots`: 8 for head dimension 128, else 6. `klines`, `vlines`: how many lines of a K
      tile (DMA) and of a V tile (LDS store) each wave brings in. */
  datatype Config = Config(waves: nat, shape: L.Shape, slots: nat, choice: nat -> L.WaveChoice, klines: nat -> nat, vlines: nat -> nat)

  predicate ConfigOk(c: Config) {
    c.waves > 0 && L.ShapeOk(c.shape) && c.shape.t0 >= 0 && (c.slots == 6 || c.slots == 8) && c.klines(0) > 0 && c.vlines(0) > 0
  }

  function Iters(c: Config): int { (c.shape.tEnd - c.shape.t0) / 2 }

  // --------------------------------------------------------------------- the program

  function Wrap(c: Config, x: nat): nat
    requires c.slots > 0
  {
    if c.slots == 8 then x % 8 else if x >= c.slots then x - c.slots else x
  }

  /** The ring index carried into iteration `p`. */
  function RingIndex(c: Config, p: nat): nat
    requires c.slots > 0
  {
    if p == 0 then c.shape.t0 % c.slots else Wrap(c, RingIndex(c, p - 1) + 2)
  }

  function J(c: Config, w: nat, p: nat): int {
    if p < |L.Plan(c.shape, c.choice(w))| then L.Plan(c.shape, c.choice(w))[p].j else 0
  }

  /** The tile of the first V packet that iteration `p` finds in its registers. */
  function Staged(c: Config, w: nat, p: nat): int {
    if p == 0 then c.shape.t0 + 2 else J(c, w, p - 1) + 4
  }

  function LoadK(tile: int, slot: nat): Instr { Load(Vm, Copy(Region(KTile, slot), tile)) }
  function StoreV(tile: int, slot: nat): Instr { Load(Lgkm, Copy(Region(VTile, slot), tile)) }
  function ReadK(slot: nat): Instr { Read(Region(KTile, slot)) }
  function ReadV(slot: nat): Instr { Read(Region(VTile, slot)) }

  const DRAIN: seq<Instr> := [Wait(Vm, 0), Wait(Lgkm, 0), Barrier]

  function Prologue(c: Config): seq<Instr>
    requires c.slots > 0 && c.shape.t0 >= 0
  {
    var t0 := c.shape.t0;
    var s := (x: nat) => (t0 + x) % c.slots;
    [LoadK(t0 + 1, s(1)), StoreV(t0, s(0)), StoreV(t0 + 1, s(1)), LoadK(t0 + 2, s(2)), LoadK(t0 + 3, s(3))]
    + (if c.shape.segmented then [StoreV(t0 + 2, s(2)), StoreV(t0 + 3, s(3))] else [])
    + DRAIN
  }

  function Iteration(c: Config, w: nat, p: nat): seq<Instr>
    requires c.slots > 0
  {
    var j, a := J(c, w, p), RingIndex(c, p);
    var b, nna, nnb, fa, fb := Wrap(c, a + 1), Wrap(c, a + 2), Wrap(c, a + 3), Wrap(c, a + 4), Wrap(c, a + 5);
    (if c.shape.segmented then
       [ReadK(a), ReadK(b), LoadK(j + 4, fa), LoadK(j + 5, fb), StoreV(j + 4, fa), StoreV(j + 5, fb), ReadV(a), ReadV(b)]
     else
       [ReadK(a), ReadK(b), ReadV(a), LoadK(j + 4, fa), LoadK(j + 5, fb),
        StoreV(Staged(c, w, p), nna), StoreV(Staged(c, w, p) + 1, nnb), ReadV(b)])
    + DRAIN
  }

  function Seg(c: Config, w: nat, s: nat): seq<Instr>
    requires c.slots > 0 && c.shape.t0 >= 0
  {
    if s == 0 then [LoadK(c.shape.t0, c.shape.t0 % c.slots)] + DRAIN
    else if s == 1 then Prologue(c)
    else if s < 2 + |L.Plan(c.shape, c.choice(w))| then Iteration(c, w, s - 2)
    else if s == 2 + |L.Plan(c.shape, c.choice(w))| then [Barrier]
    else []
  }

  function LinesOf(c: Config, w: nat, r: Region): nat {
    match r.kind
    case KTile => c.klines(w)
    case VTile => c.vlines(w)
    case _ => 0
  }

  function Pipeline(c: Config): Prog
    requires ConfigOk(c)
  {
    Prog(c.waves, (w: nat) => 3 + |L.Plan(c.shape, c.choice(w))|, (w: nat, s: nat) => Seg(c, w, s), (w: nat, r: Region) => LinesOf(c, w, r))
  }

  function Layouts(c: Config): Layout
    requires ConfigOk(c)
  {
    Layout(c.shape.t0, c.shape.t0, (kind: Kind) => if kind == KTile || kind == VTile then c.slots else 0, (kind: Kind) => false)
  }

  // ------------------------------------------------------------- by tile number

  lemma WrapIs(c: Config, x: nat, k: nat)
    requires ConfigOk(c) && k <= 5
    ensures Wrap(c, x % c.slots + k) == (x + k) % c.slots
  {
    if c.slots == 6 { WrapSix(x, k); } else { WrapEight(x, k); }
  }

  lemma WrapSix(x: nat, k: nat)
    requires k <= 5
    ensures (if x % 6 + k >= 6 then x % 6 + k - 6 else x % 6 + k) == (x + k) % 6
  {
  }

  lemma WrapEight(x: nat, k: nat)
    ensures (x % 8 + k) % 8 == (x + k) % 8
  {
  }

  lemma {:induction false} RingIndexIs(c: Config, p: nat)
    requires ConfigOk(c)
    ensures RingIndex(c, p) == (c.shape.t0 + 2 * p) % c.slots
  {
    if p > 0 {
      RingIndexIs(c, p - 1);
      WrapIs(c, c.shape.t0 + 2 * (p - 1), 2);
    }
  }

  lemma PlanIs(c: Config, w: nat, p: nat)
    requires ConfigOk(c)
    ensures |L.Plan(c.shape, c.choice(w))| == Iters(c)
    ensures p < Iters(c) ==> J(c, w, p) == c.shape.t0 + 2 * p && Staged(c, w, p) == c.shape.t0 + 2 * p + 2
  {
    L.PlanInOrder(c.shape, c.choice(w));
    hide L.Plan;
  }

  /** Iteration `p` of every wave in terms of tile numbers: whatever its loops, a wave reads
      pair p, and the staged V it stores is the pair after it. */
  lemma IterationCode(c: Config, w: nat, p: nat)
    requires ConfigOk(c) && p < Iters(c)
    ensures var l, x := Layouts(c), 2 * p;
      Iteration(c, w, p) ==
      (if c.shape.segmented then
         [Read(l.Slot(KTile, x)), Read(l.Slot(KTile, x + 1)),
          Load(Vm, l.CopyOf(KTile, x + 4)), Load(Vm, l.CopyOf(KTile, x + 5)),
          Load(Lgkm, l.CopyOf(VTile, x + 4)), Load(Lgkm, l.CopyOf(VTile, x + 5)),
          Read(l.Slot(VTile, x)), Read(l.Slot(VTile, x + 1))]
       else
         [Read(l.Slot(KTile, x)), Read(l.Slot(KTile, x + 1)), Read(l.Slot(VTile, x)),
          Load(Vm, l.CopyOf(KTile, x + 4)), Load(Vm, l.CopyOf(KTile, x + 5)),
          Load(Lgkm, l.CopyOf(VTile, x + 2)), Load(Lgkm, l.CopyOf(VTile, x + 3)), Read(l.Slot(VTile, x + 1))])
      + DRAIN
  {
    hide L.Plan, J, Staged, RingIndex, Wrap, Iters, Layout.Slot;
    PlanIs(c, w, p);
    RingIndexIs(c, p);
    var x := c.shape.t0 + 2 * p;
    WrapIs(c, x, 1);
    WrapIs(c, x, 2);
    WrapIs(c, x, 3);
    WrapIs(c, x, 4);
    WrapIs(c, x, 5);
    SlotsFrom(c, p);
  }

  lemma SlotsFrom(c: Config, p: nat)
    requires ConfigOk(c)
    ensures var l, x, at := Layouts(c), 2 * p, (i: nat) => (c.shape.t0 + 2 * p + i) % c.slots;
      && l.Slot(KTile, x) == Region(KTile, at(0)) && l.Slot(KTile, x + 1) == Region(KTile, at(1))
      && l.Slot(KTile, x + 4) == Region(KTile, at(4)) && l.Slot(KTile, x + 5) == Region(KTile, at(5))
      && l.Slot(VTile, x) == Region(VTile, at(0)) && l.Slot(VTile, x + 1) == Region(VTile, at(1))
      && l.Slot(VTile, x + 2) == Region(VTile, at(2)) && l.Slot(VTile, x + 3) == Region(VTile, at(3))
      && l.Slot(VTile, x + 4) == Region(VTile, at(4)) && l.Slot(VTile, x + 5) == Region(VTile, at(5))
  {
  }

  // ----------------------------------------------------------------------- facts

  /** K is two pairs ahead of the reads, V one or two; every copy has landed. */
  function PairFacts(c: Config, p: nat): Facts {
    Facts(Counts(2 * p + 4, if c.shape.segmented then 2 * p + 4 else 2 * p + 2, 0, 0), Counts(2 * p, 2 * p, 0, 0), [], [])
  }

  function FactsAt(c: Config, s: nat): Facts {
    if s == 0 then NONE
    else if s == 1 then Facts(Counts(1, 0, 0, 0), Counts(0, 0, 0, 0), [], [])
    else PairFacts(c, if s - 2 < Iters(c) then s - 2 else if Iters(c) < 0 then 0 else Iters(c))
  }

  function FactsOf(c: Config): (nat, nat) -> Facts {
    (w: nat, s: nat) => FactsAt(c, s)
  }

  ghost predicate KnownAt(c: Config, w: nat, s: nat)
    requires ConfigOk(c)
  {
    Know(Pipeline(c), w, Layouts(c), TrackAt(Pipeline(c), w, s, 0), FactsAt(c, s))
  }

  ghost predicate SegOk(c: Config, w: nat, s: nat)
    requires ConfigOk(c)
  {
    var p := Pipeline(c);
    && LocalOk(p, w, Layouts(c), s, FactsAt(c, s), FactsAt(c, s + 1))
    && Know(p, w, Layouts(c), TrackAt(p, w, s, |p.code(w, s)|), FactsAt(c, s + 1))
  }

  /** Instructions `from` .. `end` of segment `s` are fine and lead to facts `f`. */
  ghost predicate Upto(c: Config, w: nat, s: nat, first: Facts, last: Facts, from: nat, end: nat, f: Facts)
    requires ConfigOk(c) && end <= |Seg(c, w, s)|
  {
    && Checked(Pipeline(c), w, Layouts(c), s, first, last, from, end)
    && Know(Pipeline(c), w, Layouts(c), TrackAt(Pipeline(c), w, s, end), f)
  }

  lemma Finish(c: Config, w: nat, s: nat, mid: nat)
    requires ConfigOk(c) && mid <= |Seg(c, w, s)|
    requires Checked(Pipeline(c), w, Layouts(c), s, FactsAt(c, s), FactsAt(c, s + 1), 0, mid)
    requires Upto(c, w, s, FactsAt(c, s), FactsAt(c, s + 1), mid, |Seg(c, w, s)|, FactsAt(c, s + 1))
    ensures SegOk(c, w, s)
  {
    assert |Pipeline(c).code(w, s)| == |Seg(c, w, s)|;
    hide Checked, Know, TrackAt, LocalOk, FactsAt, Seg;
    CheckedJoins(Pipeline(c), w, Layouts(c), s, FactsAt(c, s), FactsAt(c, s + 1), mid);
  }

  lemma Filled(c: Config, kind: Kind)
    requires ConfigOk(c) && (kind == KTile || kind == VTile)
    ensures FillsKind(Pipeline(c), kind)
  {
    hide L.Plan;
    forall b: nat ensures Fills(Pipeline(c), Region(kind, b)) {
      assert Pipeline(c).lines(0, Region(kind, b)) > 0;
    }
  }

  lemma Segment0(c: Config, w: nat)
    requires ConfigOk(c) && KnownAt(c, w, 0)
    ensures SegOk(c, w, 0)
  {
    hide Know, LocalInstr, TrackAt;
    var p, l, first, last := Pipeline(c), Layouts(c), FactsAt(c, 0), FactsAt(c, 1);
    var f := DoLoad(p, w, l, 0, 0, first, first, last, Vm, KTile);
    f := DoDrain(p, w, l, 0, 1, f, first, last);
  }

  lemma PrologueCode(c: Config, w: nat)
    requires ConfigOk(c)
    ensures var l, code, k := Layouts(c), Seg(c, w, 1), if c.shape.segmented then 7 else 5;
      && |code| == k + 3
      && code[0] == Load(Vm, l.CopyOf(KTile, 1)) && code[1] == Load(Lgkm, l.CopyOf(VTile, 0)) && code[2] == Load(Lgkm, l.CopyOf(VTile, 1))
      && code[3] == Load(Vm, l.CopyOf(KTile, 2)) && code[4] == Load(Vm, l.CopyOf(KTile, 3))
      && (k == 7 ==> code[5] == Load(Lgkm, l.CopyOf(VTile, 2)) && code[6] == Load(Lgkm, l.CopyOf(VTile, 3)))
      && code[k] == Wait(Vm, 0) && code[k + 1] == Wait(Lgkm, 0) && code[k + 2] == Barrier
  {
    hide L.Plan;
    var code, k := Seg(c, w, 1), if c.shape.segmented then 7 else 5;
    assert code == Prologue(c) && code[k..] == DRAIN;
    assert code[k] == code[k..][0] && code[k + 1] == code[k..][1] && code[k + 2] == code[k..][2];
  }

  lemma Segment1(c: Config, w: nat)
    requires ConfigOk(c) && KnownAt(c, w, 1)
    ensures SegOk(c, w, 1)
  {
    var first, last, k := FactsAt(c, 1), FactsAt(c, 2), if c.shape.segmented then 7 else 5;
    assert first == Facts(Counts(1, 0, 0, 0), Counts(0, 0, 0, 0), [], []);
    assert last == PairFacts(c, 0);
    PrologueCode(c, w);
    hide Know, TrackAt, Checked, LocalInstr, Seg, FactsAt, SegOk, L.Plan;
    var f := Segment1Head(c, w, first, last);
    Segment1Tail(c, w, first, last, f);
    Finish(c, w, 1, 5);
  }

  lemma Segment1Head(c: Config, w: nat, first: Facts, last: Facts) returns (f: Facts)
    requires ConfigOk(c) && |Seg(c, w, 1)| >= 5 && first == Facts(Counts(1, 0, 0, 0), Counts(0, 0, 0, 0), [], [])
    requires Know(Pipeline(c), w, Layouts(c), TrackAt(Pipeline(c), w, 1, 0), first)
    ensures f == Facts(Counts(4, 2, 0, 0), Counts(0, 0, 0, 0), [Tag(KTile, 1), Tag(KTile, 2), Tag(KTile, 3)], [Tag(VTile, 0), Tag(VTile, 1)])
    ensures Upto(c, w, 1, first, last, 0, 5, f)
  {
    hide Layout.Slot, Know, LocalInstr, TrackAt, Seg, L.Plan;
    PrologueCode(c, w);
    var p, l := Pipeline(c), Layouts(c);
    f := DoLoad(p, w, l, 1, 0, first, first, last, Vm, KTile);
    f := DoLoadTwo(p, w, l, 1, 1, f, first, last, Lgkm, VTile);
    f := DoLoadTwo(p, w, l, 1, 3, f, first, last, Vm, KTile);
  }

  lemma Segment1Tail(c: Config, w: nat, first: Facts, last: Facts, f: Facts)
    requires ConfigOk(c) && |Seg(c, w, 1)| == (if c.shape.segmented then 10 else 8) && last == PairFacts(c, 0)
    requires f == Facts(Counts(4, 2, 0, 0), Counts(0, 0, 0, 0), [Tag(KTile, 1), Tag(KTile, 2), Tag(KTile, 3)], [Tag(VTile, 0), Tag(VTile, 1)])
    requires Know(Pipeline(c), w, Layouts(c), TrackAt(Pipeline(c), w, 1, 5), f)
    ensures Upto(c, w, 1, first, last, 5, |Seg(c, w, 1)|, last)
  {
    hide Layout.Slot, Know, LocalInstr, TrackAt, Seg, L.Plan;
    PrologueCode(c, w);
    var p, l, g, k := Pipeline(c), Layouts(c), f, 5;
    if c.shape.segmented {
      g := DoLoadTwo(p, w, l, 1, 5, g, first, last, Lgkm, VTile);
      k := 7;
    }
    g := DoDrain(p, w, l, 1, k, g, first, last);
  }

  /** The three reads and fetches an iteration starts with. */
  lemma IterationHead(c: Config, w: nat, p: nat) returns (f: Facts)
    requires ConfigOk(c) && p < Iters(c) && |Seg(c, w, 2 + p)| == 11
    requires Know(Pipeline(c), w, Layouts(c), TrackAt(Pipeline(c), w, 2 + p, 0), PairFacts(c, p))
    ensures var x, k := 2 * p, if c.shape.segmented then 4 else 5;
      && f == Facts(Counts(x + 6, PairFacts(c, p).issued.v, 0, 0), Counts(x + 2, if c.shape.segmented then x else x + 1, 0, 0),
                    [Tag(KTile, x + 4), Tag(KTile, x + 5)], [])
      && Upto(c, w, 2 + p, PairFacts(c, p), PairFacts(c, p + 1), 0, k, f)
  {
    hide Layout.Slot, Know, LocalInstr, TrackAt, Iteration, FillsKind, Seg, L.Plan;
    Filled(c, KTile);
    Filled(c, VTile);
    var pr, l, s, first, last := Pipeline(c), Layouts(c), 2 + p, PairFacts(c, p), PairFacts(c, p + 1);
    SegIsIteration(c, w, p);
    IterationCode(c, w, p);
    f := DoReadTwo(pr, w, l, s, 0, first, first, last, KTile);
    if c.shape.segmented {
      f := DoLoadTwo(pr, w, l, s, 2, f, first, last, Vm, KTile);
    } else {
      f := DoRead(pr, w, l, s, 2, f, first, last, VTile);
      f := DoLoadTwo(pr, w, l, s, 3, f, first, last, Vm, KTile);
    }
  }

  lemma SegIsIteration(c: Config, w: nat, p: nat)
    requires ConfigOk(c) && p < Iters(c)
    ensures Seg(c, w, 2 + p) == Iteration(c, w, p)
  {
    PlanIs(c, w, p);
  }

  lemma IterationTail(c: Config, w: nat, p: nat, f: Facts)
    requires ConfigOk(c) && p < Iters(c) && |Seg(c, w, 2 + p)| == 11
    requires var x, k := 2 * p, if c.shape.segmented then 4 else 5;
      && f == Facts(Counts(x + 6, PairFacts(c, p).issued.v, 0, 0), Counts(x + 2, if c.shape.segmented then x else x + 1, 0, 0),
                    [Tag(KTile, x + 4), Tag(KTile, x + 5)], [])
      && Know(Pipeline(c), w, Layouts(c), TrackAt(Pipeline(c), w, 2 + p, k), f)
    ensures Upto(c, w, 2 + p, PairFacts(c, p), PairFacts(c, p + 1), if c.shape.segmented then 4 else 5, 11, PairFacts(c, p + 1))
  {
    hide Layout.Slot, Know, LocalInstr, TrackAt, Iteration, FillsKind, Seg, L.Plan;
    Filled(c, KTile);
    Filled(c, VTile);
    var pr, l, s, first, last := Pipeline(c), Layouts(c), 2 + p, PairFacts(c, p), PairFacts(c, p + 1);
    SegIsIteration(c, w, p);
    IterationCode(c, w, p);
    var g := f;
    if c.shape.segmented {
      g := DoLoadTwo(pr, w, l, s, 4, g, first, last, Lgkm, VTile);
      g := DoReadTwo(pr, w, l, s, 6, g, first, last, VTile);
    } else {
      g := DoLoadTwo(pr, w, l, s, 5, g, first, last, Lgkm, VTile);
      g := DoRead(pr, w, l, s, 7, g, first, last, VTile);
    }
    g := DoDrain(pr, w, l, s, 8, g, first, last);
  }

  lemma SegmentIter(c: Config, w: nat, p: nat)
    requires ConfigOk(c) && p < Iters(c) && KnownAt(c, w, 2 + p)
    ensures SegOk(c, w, 2 + p)
  {
    var s, k := 2 + p, if c.shape.segmented then 4 else 5;
    SegIsIteration(c, w, p);
    IterationCode(c, w, p);
    assert FactsAt(c, s) == PairFacts(c, p) && FactsAt(c, s + 1) == PairFacts(c, p + 1) && |Seg(c, w, s)| == 11;
    hide Know, Checked, TrackAt, Seg, Iteration, FactsAt, PairFacts, Pipeline, Layouts, Iters, L.Plan, SegOk;
    var f := IterationHead(c, w, p);
    IterationTail(c, w, p, f);
    Finish(c, w, s, k);
  }

  lemma ClosingCode(c: Config, w: nat, s: nat)
    requires ConfigOk(c) && 2 + Iters(c) <= s <= 3 + Iters(c)
    ensures Seg(c, w, s) == if s == 2 + Iters(c) then [Barrier] else []
    ensures FactsAt(c, s) == FactsAt(c, s + 1)
  {
    hide L.Plan;
    PlanIs(c, w, 0);
  }

  lemma ClosingSegments(c: Config, w: nat, s: nat)
    requires ConfigOk(c) && 2 + Iters(c) <= s <= 3 + Iters(c) && KnownAt(c, w, s)
    ensures SegOk(c, w, s)
  {
    hide Know, LocalInstr, TrackAt, L.Plan, FactsAt, Seg, Iters;
    ClosingCode(c, w, s);
    if |Seg(c, w, s)| == 1 {
      DoBarrier(Pipeline(c), w, Layouts(c), s, 0, FactsAt(c, s), FactsAt(c, s), FactsAt(c, s));
    }
  }

  lemma SegmentKeeps(c: Config, w: nat, s: nat)
    requires ConfigOk(c) && s <= 3 + Iters(c) && KnownAt(c, w, s)
    ensures SegOk(c, w, s)
  {
    assert Iters(c) >= 0;
    hide *;
    if s == 0 {
      Segment0(c, w);
    } else if s == 1 {
      Segment1(c, w);
    } else if s < 2 + Iters(c) {
      SegmentIter(c, w, s - 2);
    } else {
      ClosingSegments(c, w, s);
    }
  }

  lemma {:induction false} Knows(c: Config, w: nat, s: nat)
    requires ConfigOk(c) && s <= 3 + Iters(c)
    ensures KnownAt(c, w, s)
  {
    hide Know;
    if s == 0 {
      Start(Pipeline(c), w, Layouts(c));
    } else {
      Knows(c, w, s - 1);
      SegmentKeeps(c, w, s - 1);
    }
  }

  // -------------------------------------------------------------------- main results

  /** Every segment ends in one barrier, on every wave: the first two, one per pair, and the last. */
  lemma {:induction false} BarsAre(c: Config, w: nat, s: nat)
    requires ConfigOk(c) && s <= 3 + Iters(c)
    ensures Bars(Pipeline(c), w, s) == s
  {
    if s > 0 {
      BarsAre(c, w, s - 1);
      PlanIs(c, w, 0);
      hide L.Plan;
    }
  }

  /** MAIN. Waves that chose different loops still execute the same barriers. */
  lemma EqualBarriers(c: Config, w: nat, w': nat)
    requires ConfigOk(c)
    ensures Pipeline(c).segs(w) == Pipeline(c).segs(w') == 3 + Iters(c)
    ensures Bars(Pipeline(c), w, Pipeline(c).segs(w)) == Bars(Pipeline(c), w', Pipeline(c).segs(w'))
  {
    hide L.Plan;
    PlanIs(c, w, 0);
    PlanIs(c, w', 0);
    BarsAre(c, w, 3 + Iters(c));
    BarsAre(c, w', 3 + Iters(c));
  }

  /** MAIN. In terms of the program: if the call behind an iteration leaves the V masks out, no V store of the iteration
      has a token at or past seqlen_kv. */
  lemma UnmaskedStoresAreValid(c: Config, w: nat, p: nat, i: Instr, token: int)
    requires ConfigOk(c) && p < Iters(c) && i in Iteration(c, w, p) && i.Load? && i.copy.region.kind == VTile
    requires i.copy.tile * L.BLOCK_N <= token < (i.copy.tile + 1) * L.BLOCK_N && !c.shape.pageOne
    ensures |L.Plan(c.shape, c.choice(w))| == Iters(c)
    ensures !L.Plan(c.shape, c.choice(w))[p].maskV ==> token < c.shape.seqlenKv
  {
    hide L.Plan, Iteration, Layout.Slot;
    PlanIs(c, w, p);
    IterationCode(c, w, p);
    var l, x := Layouts(c), 2 * p;
    assert i.copy in if c.shape.segmented then {l.CopyOf(VTile, x + 4), l.CopyOf(VTile, x + 5)} else {l.CopyOf(VTile, x + 2), l.CopyOf(VTile, x + 3)};
    var k := L.Plan(c.shape, c.choice(w))[p];
    assert k.j == c.shape.t0 + x;
    if !k.maskV { L.UnmaskedStoresAreValid(c.shape, c.choice(w), k, token); }
  }

  /** MAIN. And if it leaves the causal masks out, no key of a K tile that the iteration scores lies above the diagonal. */
  lemma UnmaskedScoresAreVisible(c: Config, w: nat, p: nat, y: nat, row: nat, key: int)
    requires ConfigOk(c) && p < Iters(c) && (y == 2 * p || y == 2 * p + 1)
    requires (c.shape.t0 + y) * L.BLOCK_N <= key < (c.shape.t0 + y + 1) * L.BLOCK_N
    ensures Read(Layouts(c).Slot(KTile, y)) in Iteration(c, w, p) && |L.Plan(c.shape, c.choice(w))| == Iters(c)
    ensures !L.Plan(c.shape, c.choice(w))[p].doMask ==> key <= c.choice(w).diagonal + row
  {
    hide L.Plan, Iteration, Layout.Slot;
    PlanIs(c, w, p);
    IterationCode(c, w, p);
    var k := L.Plan(c.shape, c.choice(w))[p];
    assert k.j == c.shape.t0 + 2 * p;
    if !k.doMask { L.UnmaskedScoresAreVisible(c.shape, c.choice(w), k, row, key); }
  }

  lemma IterationLoads(c: Config, w: nat, p: nat, i: Instr)
    requires ConfigOk(c) && p < Iters(c) && i in Iteration(c, w, p) && i.Load?
    ensures (i.copy.region.kind == KTile || i.copy.region.kind == VTile)
      && exists y: nat :: 2 * p + 2 <= y < 2 * p + 6 && i.copy.region == Layouts(c).Slot(i.copy.region.kind, y)
  {
    IterationCode(c, w, p);
    hide Layout.Slot, Iteration;
    var l, x := Layouts(c), 2 * p;
    assert i.copy in {l.CopyOf(KTile, x + 4), l.CopyOf(KTile, x + 5), l.CopyOf(VTile, x + 4), l.CopyOf(VTile, x + 5),
                      l.CopyOf(VTile, x + 2), l.CopyOf(VTile, x + 3)};
  }

  /** The pair an iteration reads is not what any wave stores meanwhile. */
  lemma SteadyPair(c: Config, w: nat, p: nat, kind: Kind, x: nat)
    requires ConfigOk(c) && p < Iters(c) && (kind == KTile || kind == VTile) && 2 * p <= x < 2 * p + 2
    ensures Steady(Layouts(c), PairFacts(c, p), Iteration(c, w, p), kind, x)
  {
    hide Iteration, Iters;
    var l := Layouts(c);
    if i :| i in Iteration(c, w, p) && i.Load? && i.copy.region == l.CopyOf(kind, x).region {
      IterationLoads(c, w, p, i);
      var y: nat :| 2 * p + 2 <= y < 2 * p + 6 && i.copy.region == l.Slot(i.copy.region.kind, y);
      ModDistinct(c.shape.t0 + x, c.shape.t0 + y, c.slots);
    }
  }

  lemma ReadSegment(c: Config, w: nat, s: nat, kind: Kind, x: nat)
    requires ConfigOk(c) && s <= 3 + Iters(c) && ReadHere(Pipeline(c), FactsOf(c), w, s, kind, x)
    ensures 2 <= s < 2 + Iters(c) && (kind == KTile || kind == VTile) && 2 * (s - 2) <= x < 2 * (s - 2) + 2
  {
    hide L.Plan;
    PlanIs(c, w, 0);
  }

  lemma SteadyAll(c: Config, w: nat, s: nat)
    requires ConfigOk(c) && s <= 3 + Iters(c)
    ensures SteadyDuring(Pipeline(c), Layouts(c), FactsOf(c), w, s)
  {
    hide Steady, Bars, Iteration, Prologue, ReadHere, L.Plan;
    var p := Pipeline(c);
    forall kind, x: nat, w': nat, s': nat | ReadHere(p, FactsOf(c), w, s, kind, x) && Together(p, w, s, w', s')
      ensures Steady(Layouts(c), FactsOf(c)(w', s'), p.code(w', s'), kind, x)
    {
      ReadSegment(c, w, s, kind, x);
      PlanIs(c, w', 0);
      BarsAre(c, w, s);
      BarsAre(c, w', s');
      SegIsIteration(c, w', s - 2);
      SteadyPair(c, w', s - 2, kind, x);
    }
  }

  lemma RingIsScheduled(c: Config)
    requires ConfigOk(c)
    ensures Scheduled(Pipeline(c), Layouts(c), FactsOf(c))
  {
    hide Know, LocalOk, SteadyDuring, Bars, FactsAt, L.Plan;
    var p := Pipeline(c);
    forall w, s | 0 <= w < p.waves && 0 <= s <= p.segs(w)
      ensures Know(p, w, Layouts(c), TrackAt(p, w, s, 0), FactsOf(c)(w, s))
      ensures LocalOk(p, w, Layouts(c), s, FactsOf(c)(w, s), FactsOf(c)(w, s + 1))
      ensures SteadyDuring(p, Layouts(c), FactsOf(c), w, s)
    {
      PlanIs(c, w, 0);
      Knows(c, w, s);
      SegmentKeeps(c, w, s);
      SteadyAll(c, w, s);
    }
    forall w, w' | 0 <= w < p.waves && 0 <= w' < p.waves
      ensures p.code(w, p.segs(w)) == [] && Bars(p, w, p.segs(w)) == Bars(p, w', p.segs(w'))
    {
      EqualBarriers(c, w, w');
    }
  }

  lemma AllConsumed(c: Config, w: nat, kind: Kind)
    requires ConfigOk(c) && (kind == KTile || kind == VTile)
    ensures Pipeline(c).waves == c.waves && Layouts(c).slots(kind) > 0
    ensures FactsOf(c)(w, Pipeline(c).segs(w)).consumed.Of(kind) == 2 * Iters(c)
  {
    hide L.Plan;
    PlanIs(c, w, 0);
  }

  /** MAIN. Whatever each wave decides, in every run it reads K and V tiles t0, t0+1, .. in
      order, each whole, up to the last pair. */
  lemma TilesInOrder(c: Config, steps: seq<Step>, w: nat, kind: Kind)
    requires ConfigOk(c) && CanRun(Pipeline(c), Init(Pipeline(c)), steps) && w < c.waves && (kind == KTile || kind == VTile)
    ensures ReadsAll(Pipeline(c), Layouts(c), steps, w, kind, 2 * Iters(c))
  {
    hide *;
    AllConsumed(c, w, kind);
    RingIsScheduled(c);
    ReadsInOrder(Pipeline(c), Layouts(c), FactsOf(c), steps, w, kind);
  }

  /** MAIN. While a wave still has to read a slot in its iteration, nobody writes to it. */
  lemma NoTileOverwritten(c: Config, steps: seq<Step>, u: nat, pos: nat, r: Region, w: nat)
    requires ConfigOk(c) && CanRun(Pipeline(c), Init(Pipeline(c)), steps) && u < c.waves && w < c.waves
    requires var st := Final(Pipeline(c), Init(Pipeline(c)), steps);
      |st| == c.waves && st[u].seg <= 3 + Iters(c) && pos < |Seg(c, u, st[u].seg)| && Seg(c, u, st[u].seg)[pos] == Read(r)
    ensures !InFlight(Final(Pipeline(c), Init(Pipeline(c)), steps)[w], r)
  {
    PlanIs(c, u, 0);
    hide Scheduled, Seg, L.Plan;
    RingIsScheduled(c);
    ScheduledIsValid(Pipeline(c), Layouts(c), FactsOf(c));
    NoOverwriteWhileReadable(Pipeline(c), steps, u, pos, r, w);
  }
}
