/** The dense FP8 kernel with one barrier per tile pair: six K slots and six V slots, a
    carried ring index, and waits that count DMA instructions. */
module Fp8Ring {
  import opened Arith
  import opened KBands
  import opened Machine
  import opened Rings

  const SLOTS: nat := 6

  /** `iters` tile pairs from tile `t0`; `bands` is the K layout and `numDmaV` the number of
      V DMA instructions per tile, dealt out round-robin to the waves. */
  datatype Config = Config(waves: nat, qlds: bool, t0: nat, iters: nat, bands: seq<Band>, numDmaV: nat)

  predicate ConfigOk(c: Config) {
    && c.waves > 0 && c.numDmaV > 0 && c.bands != []
    && (forall i :: 0 <= i < |c.bands| ==> BandOk(c.bands[i], RowsPerWave(c.waves)))
  }

  // ------------------------------------------------------------ DMA instructions per wave

  function RowsPerWave(waves: nat): (rows: nat)
    requires waves > 0
    ensures rows > 0
  {
    (BLOCK_N + waves - 1) / waves
  }

  /** Passes over the slots of one band of a wave's line. */
  function Passes(b: Band, rows: nat): nat {
    (rows * LanesPerRow(b) + WARP - 1) / WARP
  }

  function KInstr(bands: seq<Band>, rows: nat): nat {
    if bands == [] then 0 else KInstr(bands[..|bands| - 1], rows) + Passes(bands[|bands| - 1], rows)
  }

  /** MAIN. The passes that are counted are those that the K loader issues. */
  lemma PassesAreIssued(b: Band, rows: nat, pas: nat)
    requires BandOk(b, rows)
    ensures pas < Passes(b, rows) <==> Issued(b, rows, pas)
  {
  }

  /** One K DMA instruction: its band and its pass. */
  datatype KDma = KDma(band: nat, pas: nat)

  /** The K loader: every pass of every band that starts before the band's last slot. */
  method IssueK(bands: seq<Band>, rows: nat) returns (ids: seq<KDma>)
    requires forall i :: 0 <= i < |bands| ==> BandOk(bands[i], rows)
    ensures |ids| == KInstr(bands, rows)
    ensures forall d: nat, pas: nat :: KDma(d, pas) in ids <==> d < |bands| && Issued(bands[d], rows, pas)
    ensures forall x, y :: 0 <= x < y < |ids| ==> ids[x] != ids[y]
  {
    hide Passes, Issued;
    ids := [];
    for d := 0 to |bands|
      invariant |ids| == KInstr(bands[..d], rows)
      invariant forall e: nat, pas: nat :: KDma(e, pas) in ids <==> e < d && Issued(bands[e], rows, pas)
      invariant forall x, y :: 0 <= x < y < |ids| ==> ids[x] != ids[y]
    {
      var b := bands[d];
      var slots := rows * LanesPerRow(b);
      ghost var before := ids;
      var pas := 0;
      while pas * WARP < slots
        invariant pas <= Passes(b, rows) && |ids| == |before| + pas
        invariant forall e: nat, q: nat :: KDma(e, q) in ids <==> KDma(e, q) in before || (e == d && q < pas)
        invariant forall x, y :: 0 <= x < y < |ids| ==> ids[x] != ids[y]
        decreases Passes(b, rows) - pas
      {
        StartsBelow(b, rows, pas);
        ids := ids + [KDma(d, pas)];
        pas := pas + 1;
      }
      StartsBelow(b, rows, pas);
      forall q: nat ensures q < pas <==> Issued(b, rows, q) { PassesAreIssued(b, rows, q); }
      assert bands[..d + 1][..d] == bands[..d];
    }
    assert bands[..|bands|] == bands;
  }

  lemma StartsBelow(b: Band, rows: nat, pas: nat)
    requires BandOk(b, rows)
    ensures pas * WARP < rows * LanesPerRow(b) <==> pas < Passes(b, rows)
  {
  }

  /** V instructions of wave `w`: the ids w, w + waves, .. below the tile's total. */
  function VInstr(c: Config, w: nat): nat
    requires c.waves > 0
  {
    if w < c.numDmaV then (c.numDmaV - 1 - w) / c.waves + 1 else 0
  }

  /** The number of DMA instructions every wave is sure to issue for a tile pair. */
  function DmaPerIter(c: Config): nat
    requires c.waves > 0
  {
    2 * KInstr(c.bands, RowsPerWave(c.waves)) + 2 * (c.numDmaV / c.waves)
  }

  /** Id w + pas * waves is in range exactly for the first `VInstr` passes. */
  lemma PassInRange(c: Config, w: nat, pas: nat)
    requires c.waves > 0 && w < c.waves
    ensures w + pas * c.waves < c.numDmaV <==> pas < VInstr(c, w)
  {
    if w < c.numDmaV {
      var q := (c.numDmaV - 1 - w) / c.waves;
      DivBounds(c.numDmaV - 1 - w, c.waves);
      if pas <= q {
        MulLe(pas, q, c.waves);
      } else {
        MulLe(q + 1, pas, c.waves);
      }
    }
  }

  /** Only the last pass can miss, and none comes after it. */
  lemma LastPass(c: Config, w: nat)
    requires c.waves > 0 && w < c.waves
    ensures var passes := (c.numDmaV + c.waves - 1) / c.waves;
      && passes - 1 <= VInstr(c, w) <= passes
      && (c.numDmaV % c.waves == 0 ==> VInstr(c, w) == passes)
      && c.numDmaV / c.waves <= VInstr(c, w)
  {
    hide VInstr;
    var passes, full := (c.numDmaV + c.waves - 1) / c.waves, c.numDmaV / c.waves;
    DivBounds(c.numDmaV + c.waves - 1, c.waves);
    DivBounds(c.numDmaV, c.waves);
    assert (full - 1) * c.waves == full * c.waves - c.waves;
    assert (passes - 2) * c.waves == passes * c.waves - 2 * c.waves;
    PassInRange(c, w, passes);
    if full > 0 { PassInRange(c, w, full - 1); }
    if passes > 1 { PassInRange(c, w, passes - 2); }
    if c.numDmaV % c.waves == 0 { DivIs(c.numDmaV + c.waves - 1, c.waves, full, c.waves - 1); }
  }

  /** The V loader's passes: a wave issues its id of a pass unless it is past the last one. */
  method IssueV(c: Config, w: nat) returns (ids: seq<nat>)
    requires c.waves > 0 && w < c.waves
    ensures |ids| == VInstr(c, w)
    ensures forall k :: 0 <= k < |ids| ==> ids[k] == w + k * c.waves && ids[k] < c.numDmaV
  {
    var passes := (c.numDmaV + c.waves - 1) / c.waves;
    LastPass(c, w);
    hide VInstr;
    ids := [];
    for pas := 0 to passes
      invariant |ids| == if pas <= VInstr(c, w) then pas else VInstr(c, w)
      invariant forall k :: 0 <= k < |ids| ==> ids[k] == w + k * c.waves && ids[k] < c.numDmaV
    {
      var id := w + pas * c.waves;
      PassInRange(c, w, pas);
      if c.numDmaV % c.waves == 0 || pas < passes - 1 {
        ids := ids + [id];
      } else if id < c.numDmaV {
        ids := ids + [id];
      }
    }
  }

  /** MAIN. No wave issues fewer instructions for a pair than the waits count. */
  lemma EveryWaveIssuesEnough(c: Config, w: nat)
    requires c.waves > 0 && w < c.waves
    ensures 2 * KInstr(c.bands, RowsPerWave(c.waves)) + 2 * VInstr(c, w) >= DmaPerIter(c)
  {
    LastPass(c, w);
    hide VInstr;
  }

  // --------------------------------------------------------------------- the program

  function Wrap(x: nat): nat { if x >= SLOTS then x - SLOTS else x }

  /** The ring index the loop carries into iteration `p`. */
  function RingIndex(t0: nat, p: nat): (a: nat)
    ensures a < SLOTS
  {
    if p == 0 then t0 % SLOTS else Wrap(RingIndex(t0, p - 1) + 2)
  }

  function LoadK(c: Config, x: nat, slot: nat): Instr { Load(Vm, Copy(Region(KTile, slot), c.t0 + x)) }
  function LoadV(c: Config, x: nat, slot: nat): Instr { Load(Vm, Copy(Region(VTile, slot), c.t0 + x)) }
  function ReadK(slot: nat): Instr { Read(Region(KTile, slot)) }
  function ReadV(slot: nat): Instr { Read(Region(VTile, slot)) }

  function FirstK(c: Config): seq<Instr> {
    [LoadK(c, 0, c.t0 % SLOTS)] + if c.qlds then [Wait(Vm, 0), Barrier] else []
  }

  function Prologue(c: Config): seq<Instr>
    requires c.waves > 0
  {
    var s := (x: nat) => (c.t0 + x) % SLOTS;
    [LoadK(c, 1, s(1)), LoadV(c, 0, s(0)), LoadV(c, 1, s(1)), LoadK(c, 2, s(2)), LoadK(c, 3, s(3)),
     LoadV(c, 2, s(2)), LoadV(c, 3, s(3)), Wait(Vm, if c.qlds then 0 else DmaPerIter(c)), Barrier]
  }

  function Iteration(c: Config, p: nat): seq<Instr>
    requires c.waves > 0
  {
    var x, a := 2 * p, RingIndex(c.t0, p);
    var b, fa, fb := Wrap(a + 1), Wrap(a + 4), Wrap(a + 5);
    [ReadK(a), ReadK(b), ReadV(a), LoadK(c, x + 4, fa), LoadK(c, x + 5, fb),
     LoadV(c, x + 4, fa), LoadV(c, x + 5, fb), ReadV(b), Wait(Vm, DmaPerIter(c)), Barrier]
  }

  function Seg(c: Config, s: nat): seq<Instr>
    requires c.waves > 0
  {
    if s == 0 then FirstK(c)
    else if s == 1 then Prologue(c)
    else if s < 2 + c.iters then Iteration(c, s - 2)
    else if s == 2 + c.iters then [Barrier]
    else []
  }

  function LinesOf(c: Config, w: nat, r: Region): nat
    requires c.waves > 0
  {
    match r.kind
    case KTile => KInstr(c.bands, RowsPerWave(c.waves))
    case VTile => VInstr(c, w)
    case _ => 0
  }

  function Pipeline(c: Config): Prog
    requires ConfigOk(c)
  {
    Prog(c.waves, (w: nat) => 3 + c.iters, (w: nat, s: nat) => Seg(c, s), (w: nat, r: Region) => LinesOf(c, w, r))
  }

  function SixSlots(c: Config): Layout {
    Layout(c.t0, c.t0, (kind: Kind) => if kind == KTile || kind == VTile then SLOTS else 0, (kind: Kind) => false)
  }

  /** The carried index is the slot of the pair's first tile. */
  lemma {:induction false} CarriedIndexIs(t0: nat, p: nat)
    ensures RingIndex(t0, p) == (t0 + 2 * p) % SLOTS
  {
    if p > 0 {
      CarriedIndexIs(t0, p - 1);
      WrapIs(t0 + 2 * (p - 1), 2);
    }
  }

  lemma RingIndexIs(t0: nat, p: nat)
    ensures var a := RingIndex(t0, p);
      && a == (t0 + 2 * p) % SLOTS
      && Wrap(a + 1) == (t0 + 2 * p + 1) % SLOTS
      && Wrap(a + 4) == (t0 + 2 * p + 4) % SLOTS
      && Wrap(a + 5) == (t0 + 2 * p + 5) % SLOTS
  {
    CarriedIndexIs(t0, p);
    WrapIs(t0 + 2 * p, 1);
    WrapIs(t0 + 2 * p, 4);
    WrapIs(t0 + 2 * p, 5);
    hide *;
  }

  lemma WrapIs(x: nat, k: nat)
    requires k <= SLOTS
    ensures Wrap(x % SLOTS + k) == (x + k) % SLOTS
  {
  }

  // ---------------------------------------------------------------------- facts

  /** The loads of the pair x, x+1 in issue order. */
  function Pair(x: nat): seq<Tag> {
    [Tag(KTile, x), Tag(KTile, x + 1), Tag(VTile, x), Tag(VTile, x + 1)]
  }

  /** Two pairs are ahead of the reads; only the second of them may be in flight. */
  function FactsAt(c: Config, s: nat): Facts {
    if s == 0 then NONE
    else if s == 1 then Facts(Counts(1, 0, 0, 0), Counts(0, 0, 0, 0), [Tag(KTile, 0)], [])
    else PairFacts(if s - 2 < c.iters then s - 2 else c.iters)
  }

  function PairFacts(p: nat): Facts {
    Facts(Counts(2 * p + 4, 2 * p + 4, 0, 0), Counts(2 * p, 2 * p, 0, 0), Pair(2 * p + 2), [])
  }

  function FactsOf(c: Config): (nat, nat) -> Facts {
    (w: nat, s: nat) => FactsAt(c, s)
  }

  ghost predicate SegOk(c: Config, w: nat, s: nat)
    requires ConfigOk(c)
  {
    var p := Pipeline(c);
    && LocalOk(p, w, SixSlots(c), s, FactsAt(c, s), FactsAt(c, s + 1))
    && Know(p, w, SixSlots(c), TrackAt(p, w, s, |p.code(w, s)|), FactsAt(c, s + 1))
  }

  ghost predicate KnownAt(c: Config, w: nat, s: nat)
    requires ConfigOk(c)
  {
    Know(Pipeline(c), w, SixSlots(c), TrackAt(Pipeline(c), w, s, 0), FactsAt(c, s))
  }

  /** What a pair leaves in flight is at least what the waits allow. */
  lemma PairLines(c: Config, w: nat, x: nat)
    requires ConfigOk(c) && w < c.waves
    ensures TagLines(Pipeline(c), w, SixSlots(c), Pair(x)) >= DmaPerIter(c)
  {
    EveryWaveIssuesEnough(c, w);
    hide VInstr, KInstr, DmaPerIter, TagLines;
    var p, l := Pipeline(c), SixSlots(c);
    assert Pair(x) == ((([] + [Tag(KTile, x)]) + [Tag(KTile, x + 1)]) + [Tag(VTile, x)]) + [Tag(VTile, x + 1)];
    TagLinesAppend(p, w, l, [], Tag(KTile, x));
    TagLinesAppend(p, w, l, [] + [Tag(KTile, x)], Tag(KTile, x + 1));
    TagLinesAppend(p, w, l, [] + [Tag(KTile, x)] + [Tag(KTile, x + 1)], Tag(VTile, x));
    TagLinesAppend(p, w, l, [] + [Tag(KTile, x)] + [Tag(KTile, x + 1)] + [Tag(VTile, x)], Tag(VTile, x + 1));
  }

  lemma KInstrPositive(c: Config)
    requires ConfigOk(c)
    ensures KInstr(c.bands, RowsPerWave(c.waves)) > 0
  {
    var rows, b := RowsPerWave(c.waves), c.bands[|c.bands| - 1];
    assert BandOk(b, rows);
    MulLe(1, rows, LanesPerRow(b));
  }

  lemma WaveZeroFills(c: Config)
    requires ConfigOk(c)
    ensures VInstr(c, 0) > 0
  {
    DivBounds(c.numDmaV - 1, c.waves);
    PassInRange(c, 0, 0);
  }

  lemma Filled(c: Config, kind: Kind)
    requires ConfigOk(c) && (kind == KTile || kind == VTile)
    ensures FillsKind(Pipeline(c), kind)
  {
    KInstrPositive(c);
    WaveZeroFills(c);
    hide KInstr, VInstr;
    forall b: nat ensures Fills(Pipeline(c), Region(kind, b)) {
      assert Pipeline(c).lines(0, Region(kind, b)) > 0;
    }
  }

  lemma Segment0(c: Config, w: nat)
    requires ConfigOk(c) && w < c.waves && KnownAt(c, w, 0)
    ensures SegOk(c, w, 0)
  {
    hide Know, LocalInstr, TrackAt, TagLines;
    var p, l, first, last := Pipeline(c), SixSlots(c), FactsAt(c, 0), FactsAt(c, 1);
    var f := DoLoad(p, w, l, 0, 0, first, first, last, Vm, KTile);
    assert f.vm == last.vm;
    if c.qlds {
      assert f.vm == [] + f.vm;
      f := DoWait(p, w, l, 0, 1, f, first, last, [], f.vm);
      DoBarrier(p, w, l, 0, 2, f, first, last);
    }
  }

  lemma Segment1(c: Config, w: nat)
    requires ConfigOk(c) && w < c.waves && KnownAt(c, w, 1)
    ensures SegOk(c, w, 1)
  {
    hide Know, LocalInstr, TrackAt, TagLines, DmaPerIter;
    var p, l, first, last := Pipeline(c), SixSlots(c), FactsAt(c, 1), FactsAt(c, 2);
    var f := DoLoad(p, w, l, 1, 0, first, first, last, Vm, KTile);
    f := DoLoad(p, w, l, 1, 1, f, first, last, Vm, VTile);
    f := DoLoad(p, w, l, 1, 2, f, first, last, Vm, VTile);
    Segment1Rest(c, w, f);
  }

  /** Requesting the pair x, x+1 while only the pair before it can be in flight. */
  lemma LoadPair(c: Config, w: nat, s: nat, pos: nat, f: Facts, first: Facts, last: Facts) returns (f': Facts)
    requires ConfigOk(c) && w < c.waves && pos + 4 <= |Seg(c, s)| && f.issued.k == f.issued.v
    requires Know(Pipeline(c), w, SixSlots(c), TrackAt(Pipeline(c), w, s, pos), f)
    requires var l, x := SixSlots(c), f.issued.k;
      && Seg(c, s)[pos] == Load(Vm, l.CopyOf(KTile, x)) && Seg(c, s)[pos + 1] == Load(Vm, l.CopyOf(KTile, x + 1))
      && Seg(c, s)[pos + 2] == Load(Vm, l.CopyOf(VTile, x)) && Seg(c, s)[pos + 3] == Load(Vm, l.CopyOf(VTile, x + 1))
      && f.Free(l, KTile, x) && f.Free(l, KTile, x + 1) && f.Free(l, VTile, x) && f.Free(l, VTile, x + 1)
    ensures f' == Facts(Counts(f.issued.k + 2, f.issued.v + 2, f.issued.aux, f.issued.stage), f.consumed, f.vm + Pair(f.issued.k), f.lgkm)
    ensures Know(Pipeline(c), w, SixSlots(c), TrackAt(Pipeline(c), w, s, pos + 4), f')
    ensures forall i :: pos <= i < pos + 4 ==> LocalInstr(Pipeline(c), w, SixSlots(c), s, i, first, last)
  {
    hide Know, LocalInstr, TrackAt, Seg;
    var p, l, x := Pipeline(c), SixSlots(c), f.issued.k;
    f' := DoLoadTwo(p, w, l, s, pos, f, first, last, Vm, KTile);
    f' := DoLoadTwo(p, w, l, s, pos + 2, f', first, last, Vm, VTile);
    assert f'.vm == f.vm + Pair(x);
  }

  lemma Segment1Rest(c: Config, w: nat, f: Facts)
    requires ConfigOk(c) && w < c.waves && f.issued == Counts(2, 2, 0, 0) && f.consumed == Counts(0, 0, 0, 0) && f.lgkm == []
    requires f.vm == [Tag(KTile, 0), Tag(KTile, 1), Tag(VTile, 0), Tag(VTile, 1)]
    requires Know(Pipeline(c), w, SixSlots(c), TrackAt(Pipeline(c), w, 1, 3), f)
    ensures forall pos :: 3 <= pos < 9 ==> LocalInstr(Pipeline(c), w, SixSlots(c), 1, pos, FactsAt(c, 1), FactsAt(c, 2))
    ensures Know(Pipeline(c), w, SixSlots(c), TrackAt(Pipeline(c), w, 1, 9), FactsAt(c, 2))
  {
    hide Know, LocalInstr, TrackAt, TagLines, DmaPerIter;
    var p, l, first, last := Pipeline(c), SixSlots(c), FactsAt(c, 1), FactsAt(c, 2);
    var g := LoadPair(c, w, 1, 3, f, first, last);
    PairLines(c, w, 2);
    g := DoWait(p, w, l, 1, 7, g, first, last, f.vm, Pair(2));
    DoBarrier(p, w, l, 1, 8, g, first, last);
  }

  /** The iteration's code in terms of tile numbers. */
  lemma IterationCode(c: Config, p: nat)
    requires ConfigOk(c)
    ensures var l, x := SixSlots(c), 2 * p;
      Iteration(c, p) == [Read(l.Slot(KTile, x)), Read(l.Slot(KTile, x + 1)), Read(l.Slot(VTile, x)),
                          Load(Vm, l.CopyOf(KTile, x + 4)), Load(Vm, l.CopyOf(KTile, x + 5)),
                          Load(Vm, l.CopyOf(VTile, x + 4)), Load(Vm, l.CopyOf(VTile, x + 5)),
                          Read(l.Slot(VTile, x + 1)), Wait(Vm, DmaPerIter(c)), Barrier]
  {
    RingIndexIs(c.t0, p);
    hide RingIndex, DmaPerIter;
  }

  lemma SegmentIterHead(c: Config, w: nat, p: nat) returns (f: Facts)
    requires ConfigOk(c) && w < c.waves && p < c.iters && |Seg(c, 2 + p)| == 10
    requires Know(Pipeline(c), w, SixSlots(c), TrackAt(Pipeline(c), w, 2 + p, 0), PairFacts(p))
    ensures var x := 2 * p; f == Facts(Counts(x + 4, x + 4, 0, 0), Counts(x + 2, x + 1, 0, 0), Pair(x + 2), [])
    ensures Know(Pipeline(c), w, SixSlots(c), TrackAt(Pipeline(c), w, 2 + p, 3), f)
    ensures Checked(Pipeline(c), w, SixSlots(c), 2 + p, PairFacts(p), PairFacts(p + 1), 0, 3)
  {
    hide Layout.Slot, Know, LocalInstr, TrackAt, DmaPerIter, Iteration, KInstr, VInstr;
    var pr, l, first, last := Pipeline(c), SixSlots(c), PairFacts(p), PairFacts(p + 1);
    IterationCode(c, p);
    Filled(c, KTile);
    Filled(c, VTile);
    hide FillsKind;
    f := DoRead(pr, w, l, 2 + p, 0, first, first, last, KTile);
    f := DoRead(pr, w, l, 2 + p, 1, f, first, last, KTile);
    f := DoRead(pr, w, l, 2 + p, 2, f, first, last, VTile);
  }

  lemma SegmentIter(c: Config, w: nat, p: nat)
    requires ConfigOk(c) && w < c.waves && p < c.iters && KnownAt(c, w, 2 + p)
    ensures SegOk(c, w, 2 + p)
  {
    var pr, l, s, first, last := Pipeline(c), SixSlots(c), 2 + p, PairFacts(p), PairFacts(p + 1);
    assert FactsAt(c, s) == first && FactsAt(c, s + 1) == last && |Seg(c, s)| == |pr.code(w, s)| == 10;
    hide *;
    var f := SegmentIterHead(c, w, p);
    SegmentIterRest(c, w, p, f);
    assert Checked(pr, w, l, s, first, last, 3, |pr.code(w, s)|);
    CheckedJoins(pr, w, l, s, first, last, 3);
    SegIsOk(c, w, s);
  }

  lemma SegIsOk(c: Config, w: nat, s: nat)
    requires ConfigOk(c)
    requires LocalOk(Pipeline(c), w, SixSlots(c), s, FactsAt(c, s), FactsAt(c, s + 1))
    requires Know(Pipeline(c), w, SixSlots(c), TrackAt(Pipeline(c), w, s, |Seg(c, s)|), FactsAt(c, s + 1))
    ensures SegOk(c, w, s)
  {
    hide Know, LocalOk, TrackAt;
  }

  lemma SegmentIterRest(c: Config, w: nat, p: nat, f: Facts)
    requires ConfigOk(c) && w < c.waves && p < c.iters
    requires var x := 2 * p; f == Facts(Counts(x + 4, x + 4, 0, 0), Counts(x + 2, x + 1, 0, 0), Pair(x + 2), [])
    requires |Seg(c, 2 + p)| == 10 && Know(Pipeline(c), w, SixSlots(c), TrackAt(Pipeline(c), w, 2 + p, 3), f)
    ensures Checked(Pipeline(c), w, SixSlots(c), 2 + p, PairFacts(p), PairFacts(p + 1), 3, 10)
    ensures Know(Pipeline(c), w, SixSlots(c), TrackAt(Pipeline(c), w, 2 + p, 10), PairFacts(p + 1))
  {
    hide Layout.Slot, Know, LocalInstr, TrackAt, TagLines, DmaPerIter, Iteration, KInstr, VInstr;
    IterationCode(c, p);
    var g := LoadPair(c, w, 2 + p, 3, f, PairFacts(p), PairFacts(p + 1));
    SegmentIterTail(c, w, p, g);
  }

  lemma SegmentIterTail(c: Config, w: nat, p: nat, f: Facts)
    requires ConfigOk(c) && w < c.waves && p < c.iters
    requires var x := 2 * p; f == Facts(Counts(x + 6, x + 6, 0, 0), Counts(x + 2, x + 1, 0, 0), Pair(x + 2) + Pair(x + 4), [])
    requires |Seg(c, 2 + p)| == 10 && Know(Pipeline(c), w, SixSlots(c), TrackAt(Pipeline(c), w, 2 + p, 7), f)
    ensures Checked(Pipeline(c), w, SixSlots(c), 2 + p, PairFacts(p), PairFacts(p + 1), 7, 10)
    ensures Know(Pipeline(c), w, SixSlots(c), TrackAt(Pipeline(c), w, 2 + p, 10), PairFacts(p + 1))
  {
    hide Layout.Slot, Know, LocalInstr, TrackAt, TagLines, DmaPerIter, Iteration, KInstr, VInstr;
    var pr, l, first, last := Pipeline(c), SixSlots(c), PairFacts(p), PairFacts(p + 1);
    IterationCode(c, p);
    Filled(c, VTile);
    hide FillsKind;
    var s, x := 2 + p, 2 * p;
    var g := DoRead(pr, w, l, s, 7, f, first, last, VTile);
    PairLines(c, w, x + 4);
    g := DoWait(pr, w, l, s, 8, g, first, last, Pair(x + 2), Pair(x + 4));
    DoBarrier(pr, w, l, s, 9, g, first, last);
  }

  lemma SegmentKeeps(c: Config, w: nat, s: nat)
    requires ConfigOk(c) && w < c.waves && s <= 3 + c.iters && KnownAt(c, w, s)
    ensures SegOk(c, w, s)
  {
    hide Know, LocalInstr, TrackAt, Iteration;
    if s == 0 {
      Segment0(c, w);
    } else if s == 1 {
      Segment1(c, w);
    } else if s < 2 + c.iters {
      SegmentIter(c, w, s - 2);
    } else if s == 2 + c.iters {
      DoBarrier(Pipeline(c), w, SixSlots(c), s, 0, FactsAt(c, s), FactsAt(c, s), FactsAt(c, s + 1));
    }
  }

  lemma {:induction false} Knows(c: Config, w: nat, s: nat)
    requires ConfigOk(c) && w < c.waves && s <= 3 + c.iters
    ensures KnownAt(c, w, s)
  {
    hide Know;
    if s == 0 {
      Start(Pipeline(c), w, SixSlots(c));
    } else {
      Knows(c, w, s - 1);
      SegmentKeeps(c, w, s - 1);
    }
  }

  // ------------------------------------------------------------------- main results

  /** Barriers alone fix the segment, but for the two that come before the first barrier. */
  lemma {:induction false} BarsAre(c: Config, w: nat, s: nat)
    requires ConfigOk(c) && s <= 3 + c.iters
    ensures Bars(Pipeline(c), w, s) == if c.qlds || s == 0 then s else s - 1
  {
    if s > 0 {
      BarsAre(c, w, s - 1);
    }
  }

  /** The tiles an iteration reads are not the ones anybody may be refilling. */
  lemma SteadyPair(c: Config, p: nat, kind: Kind, x: nat)
    requires ConfigOk(c) && p < c.iters && (kind == KTile || kind == VTile) && 2 * p <= x < 2 * p + 2
    ensures Steady(SixSlots(c), PairFacts(p), Iteration(c, p), kind, x)
  {
    hide Iteration, DmaPerIter;
    IterationCode(c, p);
    var l := SixSlots(c);
    forall y | 2 * p + 4 <= y <= 2 * p + 5 ensures l.Slot(kind, y) != l.Slot(kind, x) {
      ModDistinct(c.t0 + x, c.t0 + y, SLOTS);
    }
    NoOtherLoads(c, p);
  }

  lemma NoOtherLoads(c: Config, p: nat)
    requires ConfigOk(c)
    ensures forall i :: i in Iteration(c, p) && i.Load? ==>
      exists y: nat :: 2 * p + 4 <= y <= 2 * p + 5 && i.copy.region == SixSlots(c).Slot(i.copy.region.kind, y)
  {
    hide Iteration, DmaPerIter;
    IterationCode(c, p);
  }

  lemma ReadSegment(c: Config, w: nat, s: nat, kind: Kind, x: nat)
    requires ConfigOk(c) && s <= 3 + c.iters && ReadHere(Pipeline(c), FactsOf(c), w, s, kind, x)
    ensures 2 <= s < 2 + c.iters && (kind == KTile || kind == VTile) && 2 * (s - 2) <= x < 2 * (s - 2) + 2
  {
  }

  lemma SteadyAll(c: Config, w: nat, s: nat)
    requires ConfigOk(c) && w < c.waves && s <= 3 + c.iters
    ensures SteadyDuring(Pipeline(c), SixSlots(c), FactsOf(c), w, s)
  {
    hide Steady, Bars, Iteration, Prologue, ReadHere;
    var p := Pipeline(c);
    forall kind, x: nat, w': nat, s': nat | ReadHere(p, FactsOf(c), w, s, kind, x) && Together(p, w, s, w', s')
      ensures Steady(SixSlots(c), FactsOf(c)(w', s'), p.code(w', s'), kind, x)
    {
      ReadSegment(c, w, s, kind, x);
      BarsAre(c, w, s);
      BarsAre(c, w', s');
      SteadyPair(c, s - 2, kind, x);
    }
  }

  lemma RingIsScheduled(c: Config)
    requires ConfigOk(c)
    ensures Scheduled(Pipeline(c), SixSlots(c), FactsOf(c))
  {
    hide Know, LocalOk, SteadyDuring, Bars, FactsAt;
    var p := Pipeline(c);
    forall w, s | 0 <= w < p.waves && 0 <= s <= p.segs(w)
      ensures Know(p, w, SixSlots(c), TrackAt(p, w, s, 0), FactsOf(c)(w, s))
      ensures LocalOk(p, w, SixSlots(c), s, FactsOf(c)(w, s), FactsOf(c)(w, s + 1))
      ensures SteadyDuring(p, SixSlots(c), FactsOf(c), w, s)
    {
      Knows(c, w, s);
      SegmentKeeps(c, w, s);
      SteadyAll(c, w, s);
    }
    forall w, w' | 0 <= w < p.waves && 0 <= w' < p.waves
      ensures p.code(w, p.segs(w)) == [] && Bars(p, w, p.segs(w)) == Bars(p, w', p.segs(w'))
    {
      BarsAre(c, w, 3 + c.iters);
      BarsAre(c, w', 3 + c.iters);
    }
  }

  /** MAIN. In every run, every wave reads K and V tiles t0, t0+1, .. in order, each whole,
      from slot t mod 6; a finished wave has read both tiles of all its iterations. */
  lemma TilesInOrder(c: Config, steps: seq<Step>, w: nat, kind: Kind)
    requires ConfigOk(c) && CanRun(Pipeline(c), Init(Pipeline(c)), steps) && w < c.waves && (kind == KTile || kind == VTile)
    ensures ReadsAll(Pipeline(c), SixSlots(c), steps, w, kind, 2 * c.iters)
  {
    hide Scheduled, ReadsAll;
    RingIsScheduled(c);
    ReadsInOrder(Pipeline(c), SixSlots(c), FactsOf(c), steps, w, kind);
  }

  /** MAIN. When a wave starts iteration `p`, only the loads of the pair after next (issued in
      the iteration before, or the prologue) can still be in flight. */
  lemma OnlyNewestPairInFlight(c: Config, steps: seq<Step>, w: nat, p: nat, d: Copy)
    requires ConfigOk(c) && CanRun(Pipeline(c), Init(Pipeline(c)), steps) && w < c.waves && p < c.iters
    requires var st := Final(Pipeline(c), Init(Pipeline(c)), steps);
      |st| == c.waves && st[w].seg == 2 + p && st[w].pos == 0 && d in st[w].vm.copies
    ensures d.tile == c.t0 + 2 * p + 2 || d.tile == c.t0 + 2 * p + 3
  {
    hide Scheduled;
    RingIsScheduled(c);
    InFlightAllowed(Pipeline(c), SixSlots(c), FactsOf(c), steps, w, d);
  }

  /** MAIN. While a wave still has to read a slot in its iteration, nobody's DMA writes to it. */
  lemma NoTileOverwritten(c: Config, steps: seq<Step>, u: nat, pos: nat, r: Region, w: nat)
    requires ConfigOk(c) && CanRun(Pipeline(c), Init(Pipeline(c)), steps) && u < c.waves && w < c.waves
    requires var st := Final(Pipeline(c), Init(Pipeline(c)), steps);
      |st| == c.waves && st[u].seg <= 3 + c.iters && pos < |Seg(c, st[u].seg)| && Seg(c, st[u].seg)[pos] == Read(r)
    ensures !InFlight(Final(Pipeline(c), Init(Pipeline(c)), steps)[w], r)
  {
    hide Scheduled, Seg;
    RingIsScheduled(c);
    ScheduledIsValid(Pipeline(c), SixSlots(c), FactsOf(c));
    NoOverwriteWhileReadable(Pipeline(c), steps, u, pos, r, w);
  }
}
