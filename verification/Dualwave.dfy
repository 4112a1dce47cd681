/** The dual-wave bf16/f16 kernel body as a program of the machine: prologue, 8-cluster
    loop and epilogue, with the stagger barriers that open and close the phase shift. */
module Dualwave {
  import opened Machine
  import opened Rings

  /** `n` tiles starting at tile `t0`; `nk`, `nv`, `nb` DMA lines a wave issues per K, V and
      bias tile (`nb == 0`: no bias). With `stagger`, the upper half of the waves is group B. */
  datatype Config = Config(waves: nat, stagger: bool, t0: nat, n: nat, nk: nat, nv: nat, nb: nat)

  predicate ConfigOk(c: Config) {
    c.waves > 0 && c.waves % 2 == 0 && c.n >= 4 && c.n % 2 == 0 && c.nk > 0 && c.nv > 0
  }

  predicate GroupB(c: Config, w: nat)
    requires c.waves > 1
  {
    w / (c.waves / 2) != 0
  }

  // ------------------------------------------------------------- the program text

  function LoadK(c: Config, tile: nat, buf: nat): Instr {
    Load(Vm, Copy(Region(KTile, buf), c.t0 + tile))
  }
  function LoadV(c: Config, tile: nat, buf: nat): Instr {
    Load(Vm, Copy(Region(VTile, buf), c.t0 + tile))
  }
  function LoadBias(c: Config, tile: nat, buf: nat): Instr {
    Load(Vm, Copy(Region(AuxTile, buf), c.t0 + tile))
  }
  function ReadK(buf: nat): Instr { Read(Region(KTile, buf)) }
  function ReadV(buf: nat): Instr { Read(Region(VTile, buf)) }

  /** Scores of a tile: wait for its bias, read it, and prefetch the next tile's bias. */
  function QkScored(c: Config, tile: nat, buf: nat, biasVmcnt: nat, prefetchNext: bool): seq<Instr>
    requires buf <= 1
  {
    if c.nb == 0 then []
    else [Wait(Vm, biasVmcnt), ReadOwn(Region(AuxTile, buf))]
         + if prefetchNext then [LoadBias(c, tile + 1, 1 - buf)] else []
  }

  /** Group B opens the phase shift with one extra barrier; without stagger everyone syncs. */
  function OpenBarrier(c: Config, w: nat): seq<Instr>
    requires c.waves > 1
  {
    if c.stagger && !GroupB(c, w) then [] else [Barrier]
  }

  function CloseBarrier(c: Config, w: nat): seq<Instr>
    requires c.waves > 1
  {
    if c.stagger && GroupB(c, w) then [] else [Barrier]
  }

  function Prologue(c: Config, w: nat, s: nat): seq<Instr>
    requires c.waves > 1
  {
    if s == 0 then [LoadK(c, 0, 0), Wait(Vm, 0), Barrier]
    else if s == 1 then
      (if c.nb == 0 then [] else [LoadBias(c, 0, 0)])
      + [LoadK(c, 1, 1), LoadV(c, 0, 0), ReadK(0), Wait(Vm, c.nv)] + OpenBarrier(c, w)
    else QkScored(c, 0, 0, c.nk + c.nv, true) + [Barrier]
  }

  function LoopCluster(c: Config, j: nat, cluster: nat): seq<Instr>
    requires j >= 3
  {
    match cluster
    case 0 => [LoadV(c, j - 2, 1), ReadK(1), Wait(Vm, c.nk + c.nv), Barrier]
    case 1 => QkScored(c, j - 2, 1, c.nk + c.nv, true) + [Barrier]
    case 2 => [LoadK(c, j, 1), ReadV(0), Wait(Vm, c.nk + c.nv), Barrier]
    case 3 => [Barrier]
    case 4 => [LoadV(c, j - 1, 0), ReadK(0), Wait(Vm, c.nk + c.nv), Barrier]
    case 5 => QkScored(c, j - 1, 0, c.nk + c.nv, true) + [Barrier]
    case 6 => [LoadK(c, j + 1, 0), ReadV(1), Wait(Vm, c.nk + c.nv), Barrier]
    case _ => [Barrier]
  }

  function Epilogue(c: Config, w: nat, cluster: nat): seq<Instr>
    requires c.waves > 1 && c.n >= 4
  {
    match cluster
    case 0 => [LoadV(c, c.n - 3, 1), ReadK(1), Wait(Vm, c.nk + c.nv), Barrier]
    case 1 => QkScored(c, c.n - 3, 1, c.nk + c.nv, true) + [Barrier]
    case 2 => [LoadK(c, c.n - 1, 1), ReadV(0), Wait(Vm, c.nk + c.nv), Barrier]
    case 3 => [Barrier]
    case 4 => [LoadV(c, c.n - 2, 0), ReadK(0), Wait(Vm, c.nk + c.nv), Barrier]
    case 5 => QkScored(c, c.n - 2, 0, c.nk + c.nv, true) + [Barrier]
    case 6 => [ReadV(1), Wait(Vm, c.nv), Barrier]
    case 7 => [Barrier]
    case 8 => [LoadV(c, c.n - 1, 1), ReadK(1), Wait(Vm, c.nv), Barrier]
    case 9 => QkScored(c, c.n - 1, 1, c.nv, false) + [Barrier]
    case 10 => [ReadV(0), Wait(Vm, 0), Barrier]
    case 11 => [Barrier]
    case 12 => [ReadV(1), Barrier]
    case 13 => CloseBarrier(c, w)
    case _ => []
  }

  /** Segments 0-2 are the prologue, then 8 clusters per iteration j = 3, 5, .. < n-1, then
      the epilogue; K tile 2 is prefetched between the prologue and whatever comes first. */
  function Seg(c: Config, w: nat, s: nat): seq<Instr>
    requires c.waves > 1 && c.n >= 4
  {
    if s < 3 then Prologue(c, w, s)
    else
      (if s == 3 then [LoadK(c, 2, 0)] else [])
      + (if s - 3 < 4 * (c.n - 4) then LoopCluster(c, 3 + 2 * ((s - 3) / 8), (s - 3) % 8)
         else Epilogue(c, w, s - 3 - 4 * (c.n - 4)))
  }

  function LinesOf(c: Config, r: Region): nat {
    match r.kind
    case KTile => c.nk
    case VTile => c.nv
    case AuxTile => c.nb
    case VtStage => 0
  }

  function Pipeline(c: Config): Prog
    requires ConfigOk(c)
  {
    Prog(c.waves, (w: nat) => 4 * c.n + 1, (w: nat, s: nat) => Seg(c, w, s), (w: nat, r: Region) => LinesOf(c, r))
  }

  // ------------------------------------------------- the same clusters by tile number

  function CopyOf(c: Config, kind: Kind, tile: nat): Copy {
    Copy(Region(kind, tile % 2), c.t0 + tile)
  }

  /** Memory cluster M(2i): fetch V(i+1), read K(i+1). Compute cluster: score tile i+1.
      M(2i+1): fetch K(i+3), read V(i). Compute cluster: P*V. Segment 3+4i+r is the r-th. */
  function Cluster(c: Config, w: nat, i: nat, r: nat): seq<Instr>
    requires ConfigOk(c) && i < c.n && r < 4
  {
    match r
    case 0 =>
      if i == c.n - 1 then [ReadV(i % 2), Barrier]
      else (if i == 0 then [LoadK(c, 2, 0)] else [])
           + [LoadV(c, i + 1, (i + 1) % 2), ReadK((i + 1) % 2), Wait(Vm, if i == c.n - 2 then c.nv else c.nk + c.nv), Barrier]
    case 1 =>
      if i == c.n - 1 then CloseBarrier(c, w)
      else QkScored(c, i + 1, (i + 1) % 2, if i == c.n - 2 then c.nv else c.nk + c.nv, i != c.n - 2) + [Barrier]
    case 2 =>
      if i == c.n - 2 then [ReadV(i % 2), Wait(Vm, 0), Barrier]
      else if i == c.n - 3 then [ReadV(i % 2), Wait(Vm, c.nv), Barrier]
      else [LoadK(c, i + 3, (i + 1) % 2), ReadV(i % 2), Wait(Vm, c.nk + c.nv), Barrier]
    case _ => [Barrier]
  }

  lemma SegIsCluster(c: Config, w: nat, i: nat, r: nat)
    requires ConfigOk(c) && i < c.n && r < 4 && 3 + 4 * i + r <= 4 * c.n
    ensures Seg(c, w, 3 + 4 * i + r) == Cluster(c, w, i, r)
  {
    var s := 3 + 4 * i + r;
    if i < c.n - 4 {
      assert (s - 3) / 8 == i / 2 && (s - 3) % 8 == 4 * (i % 2) + r;
    }
  }

  // --------------------------------------------- what every wave knows at a segment

  function Min(a: int, b: int): int { if a < b then a else b }

  function Fetch(c: Config, kind: Kind, tile: nat): seq<Tag> {
    if tile < c.n && (kind == AuxTile ==> c.nb > 0) then [Tag(kind, tile)] else []
  }

  function TwoSlots(c: Config): Layout {
    Layout(c.t0, 0, (kind: Kind) => if kind == VtStage then 0 else 2, (kind: Kind) => false)
  }

  function Cap(c: Config, x: nat): nat { if x < c.n then x else c.n }
  function CapBias(c: Config, x: nat): nat { if c.nb == 0 then 0 else Cap(c, x) }

  /** What a wave knows at the start of cluster (i, r): tiles issued, tiles read, and the
      copies that may still be in flight, oldest first. */
  function FactsIn(c: Config, i: nat, r: nat): Facts {
    match r
    case 0 => Facts(Counts(if i == 0 then 2 else Cap(c, i + 3), Cap(c, i + 1), CapBias(c, i + 2), 0),
                    Counts(Cap(c, i + 1), i, CapBias(c, i + 1), 0),
                    if i == c.n - 1 then []
                    else Fetch(c, VTile, i) + Fetch(c, AuxTile, i + 1) + if i == 0 then [] else Fetch(c, KTile, i + 2), [])
    case 1 => Facts(Counts(Cap(c, i + 3), Cap(c, i + 2), CapBias(c, i + 2), 0),
                    Counts(Cap(c, i + 2), if i == c.n - 1 then c.n else i, CapBias(c, i + 1), 0),
                    if i == c.n - 1 then [] else Fetch(c, KTile, i + 2) + Fetch(c, VTile, i + 1), [])
    case 2 => Facts(Counts(Cap(c, i + 3), Cap(c, i + 2), CapBias(c, i + 3), 0),
                    Counts(Cap(c, i + 2), if i == c.n - 1 then c.n else i, CapBias(c, i + 2), 0),
                    if i == c.n - 1 then []
                    else Fetch(c, KTile, i + 2) + Fetch(c, VTile, i + 1) + Fetch(c, AuxTile, i + 2), [])
    case _ => Facts(Counts(Cap(c, i + 4), Cap(c, i + 2), CapBias(c, i + 3), 0),
                    Counts(Cap(c, i + 2), i + 1, CapBias(c, i + 2), 0),
                    if i == c.n - 2 then []
                    else Fetch(c, VTile, i + 1) + Fetch(c, AuxTile, i + 2) + Fetch(c, KTile, i + 3), [])
  }

  function FactsAt(c: Config, s: nat): Facts {
    if s == 0 then NONE
    else if s == 1 then Facts(Counts(1, 0, 0, 0), Counts(0, 0, 0, 0), [], [])
    else if s == 2 then Facts(Counts(2, 1, CapBias(c, 1), 0), Counts(1, 0, 0, 0), Fetch(c, VTile, 0), [])
    else FactsIn(c, (s - 3) / 4, (s - 3) % 4)
  }

  /** What wave `w` knows at the start of segment `s`. */
  ghost predicate KnownAt(c: Config, w: nat, s: nat)
    requires ConfigOk(c)
  {
    Know(Pipeline(c), w, TwoSlots(c), TrackAt(Pipeline(c), w, s, 0), FactsAt(c, s))
  }

  /** Segment `s` leads from the facts at its start to the facts at the next one. */
  ghost predicate SegOk(c: Config, w: nat, s: nat)
    requires ConfigOk(c)
  {
    var p := Pipeline(c);
    && LocalOk(p, w, TwoSlots(c), s, FactsAt(c, s), FactsAt(c, s + 1))
    && Know(p, w, TwoSlots(c), TrackAt(p, w, s, |p.code(w, s)|), FactsAt(c, s + 1))
  }

  lemma FetchLines(c: Config, w: nat, a: seq<Tag>, kind: Kind, x: nat)
    requires ConfigOk(c)
    ensures TagLines(Pipeline(c), w, TwoSlots(c), a + Fetch(c, kind, x))
      == TagLines(Pipeline(c), w, TwoSlots(c), a) + if x < c.n then LinesOf(c, Region(kind, 0)) else 0
  {
    LiveConcat(Pipeline(c), w, TwoSlots(c), a, Fetch(c, kind, x));
    assert Fetch(c, kind, x)[..0] == [];
  }

  lemma Filled(c: Config, kind: Kind)
    requires ConfigOk(c) && (kind == KTile || kind == VTile)
    ensures FillsKind(Pipeline(c), kind)
  {
    forall b: nat ensures Fills(Pipeline(c), Region(kind, b)) {
      assert Pipeline(c).lines(0, Region(kind, b)) > 0;
    }
  }

  lemma Prologue0(c: Config, w: nat)
    requires ConfigOk(c) && KnownAt(c, w, 0)
    ensures SegOk(c, w, 0)
  {
    hide Know, LocalInstr, TrackAt;
    var p, l, first, last := Pipeline(c), TwoSlots(c), FactsAt(c, 0), FactsAt(c, 1);
    var f := DoLoad(p, w, l, 0, 0, first, first, last, Vm, KTile);
    f := DoWait(p, w, l, 0, 1, f, first, last, [Tag(KTile, 0)], []);
    DoBarrier(p, w, l, 0, 2, f, first, last);
  }

  lemma Prologue1(c: Config, w: nat)
    requires ConfigOk(c) && KnownAt(c, w, 1)
    ensures SegOk(c, w, 1)
  {
    hide Know, LocalInstr, TrackAt, TagLines;
    var p, l, first, last := Pipeline(c), TwoSlots(c), FactsAt(c, 1), FactsAt(c, 2);
    if c.nb > 0 {
      var f := DoLoad(p, w, l, 1, 0, first, first, last, Vm, AuxTile);
      Prologue1Rest(c, w, f, 1);
    } else {
      Prologue1Rest(c, w, first, 0);
    }
  }

  lemma Prologue1Code(c: Config, w: nat, k: nat)
    requires ConfigOk(c) && k == (if c.nb > 0 then 1 else 0)
    ensures var code := Seg(c, w, 1);
      && |code| == (if OpenBarrier(c, w) == [] then k + 4 else k + 5)
      && code[k] == LoadK(c, 1, 1) && code[k + 1] == LoadV(c, 0, 0) && code[k + 2] == ReadK(0) && code[k + 3] == Wait(Vm, c.nv)
      && (OpenBarrier(c, w) != [] ==> code[k + 4] == Barrier)
  {
    var code := Seg(c, w, 1);
    assert code[k..] == [LoadK(c, 1, 1), LoadV(c, 0, 0), ReadK(0), Wait(Vm, c.nv)] + OpenBarrier(c, w);
    assert code[k] == code[k..][0] && code[k + 1] == code[k..][1] && code[k + 2] == code[k..][2] && code[k + 3] == code[k..][3];
    assert OpenBarrier(c, w) != [] ==> code[k + 4] == code[k..][4];
  }

  lemma Prologue1Rest(c: Config, w: nat, f: Facts, k: nat)
    requires ConfigOk(c) && k == (if c.nb > 0 then 1 else 0)
    requires f == Facts(Counts(1, 0, k, 0), Counts(0, 0, 0, 0), Fetch(c, AuxTile, 0), [])
    requires Know(Pipeline(c), w, TwoSlots(c), TrackAt(Pipeline(c), w, 1, k), f)
    ensures forall pos :: k <= pos < |Seg(c, w, 1)| ==> LocalInstr(Pipeline(c), w, TwoSlots(c), 1, pos, FactsAt(c, 1), FactsAt(c, 2))
    ensures Know(Pipeline(c), w, TwoSlots(c), TrackAt(Pipeline(c), w, 1, |Seg(c, w, 1)|), FactsAt(c, 2))
  {
    hide Know, LocalInstr, TrackAt, TagLines, Seg, OpenBarrier, FillsKind;
    Filled(c, KTile);
    var p, l, first, last := Pipeline(c), TwoSlots(c), FactsAt(c, 1), FactsAt(c, 2);
    Prologue1Code(c, w, k);
    var g := DoLoad(p, w, l, 1, k, f, first, last, Vm, KTile);
    FetchLines(c, w, [], VTile, 0);
    assert g.vm == g.vm + [];
    assert [] + [Tag(VTile, 0)] == Fetch(c, VTile, 0) == [] + Fetch(c, VTile, 0);
    g := FetchAndRead(p, w, l, 1, k + 1, g, first, last, VTile, KTile, c.nv, g.vm, []);
    if OpenBarrier(c, w) != [] {
      DoBarrier(p, w, l, 1, k + 4, g, first, last);
    }
  }

  /** Scoring tile `x`: its bias has landed, and the next bias tile is requested. */
  lemma Scored(c: Config, w: nat, s: nat, x: nat, vmcnt: nat, prefetch: bool)
    requires ConfigOk(c) && Seg(c, w, s) == QkScored(c, x, x % 2, vmcnt, prefetch) + [Barrier] && KnownAt(c, w, s)
    requires forall t :: t in FactsAt(c, s).vm ==> t.kind != AuxTile
    requires FactsAt(c, s).lgkm == []
    requires c.nb > 0 ==> FactsAt(c, s).consumed.aux == x && FactsAt(c, s).issued.aux == x + 1
    requires var f, f' := FactsAt(c, s), FactsAt(c, s + 1);
      && f'.consumed == (if c.nb > 0 then f.consumed.Bump(AuxTile) else f.consumed)
      && f'.issued == (if c.nb > 0 && prefetch then f.issued.Bump(AuxTile) else f.issued)
      && f'.vm == (if c.nb > 0 && prefetch then f.vm + [Tag(AuxTile, x + 1)] else f.vm)
      && f'.lgkm == []
    ensures SegOk(c, w, s)
  {
    hide Know, LocalInstr, TrackAt, TagLines, FactsAt, Seg;
    var p, l, first, last := Pipeline(c), TwoSlots(c), FactsAt(c, s), FactsAt(c, s + 1);
    if c.nb == 0 {
      DoBarrier(p, w, l, s, 0, first, first, last);
    } else {
      assert first.vm == [] + first.vm;
      var f := DoWait(p, w, l, s, 0, first, first, last, [], first.vm);
      f := DoRead(p, w, l, s, 1, f, first, last, AuxTile);
      if prefetch {
        f := DoLoad(p, w, l, s, 2, f, first, last, Vm, AuxTile);
        DoBarrier(p, w, l, s, 3, f, first, last);
      } else {
        DoBarrier(p, w, l, s, 2, f, first, last);
      }
    }
  }

  lemma Prologue2(c: Config, w: nat)
    requires ConfigOk(c) && KnownAt(c, w, 2)
    ensures SegOk(c, w, 2)
  {
    hide Know, SegOk;
    Scored(c, w, 2, 0, c.nk + c.nv, true);
  }

  lemma FactsAreIn(c: Config, i: nat, r: nat)
    requires r < 4
    ensures FactsAt(c, 3 + 4 * i + r) == FactsIn(c, i, r)
  {
    assert (4 * i + r) / 4 == i && (4 * i + r) % 4 == r;
  }

  lemma Memory0(c: Config, w: nat, i: nat)
    requires ConfigOk(c) && i < c.n - 1 && KnownAt(c, w, 3 + 4 * i)
    ensures SegOk(c, w, 3 + 4 * i)
  {
    hide Know, LocalInstr, TrackAt, TagLines, FactsAt, Seg, FillsKind;
    Filled(c, KTile);
    var s := 3 + 4 * i;
    var p, l, first, last := Pipeline(c), TwoSlots(c), FactsIn(c, i, 0), FactsIn(c, i, 1);
    SegIsCluster(c, w, i, 0);
    FactsAreIn(c, i, 0);
    FactsAreIn(c, i, 1);
    var f, k := first, 0;
    if i == 0 {
      f := DoLoad(p, w, l, s, 0, f, first, last, Vm, KTile);
      k := 1;
    }
    var gone, rest := Fetch(c, VTile, i) + Fetch(c, AuxTile, i + 1), Fetch(c, KTile, i + 2);
    assert f.vm == gone + rest;
    Memory0Lines(c, w, i);
    f := FetchAndRead(p, w, l, s, k, f, first, last, VTile, KTile, if i == c.n - 2 then c.nv else c.nk + c.nv, gone, rest);
    DoBarrier(p, w, l, s, k + 3, f, first, last);
  }

  lemma Memory0Lines(c: Config, w: nat, i: nat)
    requires ConfigOk(c) && i < c.n - 1
    ensures TagLines(Pipeline(c), w, TwoSlots(c), Fetch(c, KTile, i + 2) + [Tag(VTile, i + 1)])
      == if i == c.n - 2 then c.nv else c.nk + c.nv
  {
    FetchLines(c, w, [], KTile, i + 2);
    FetchLines(c, w, Fetch(c, KTile, i + 2), VTile, i + 1);
    assert [] + Fetch(c, KTile, i + 2) == Fetch(c, KTile, i + 2);
  }

  lemma Compute1(c: Config, w: nat, i: nat)
    requires ConfigOk(c) && i < c.n - 1 && KnownAt(c, w, 4 + 4 * i)
    ensures SegOk(c, w, 4 + 4 * i)
  {
    hide Know, SegOk, FactsAt, Seg;
    SegIsCluster(c, w, i, 1);
    FactsAreIn(c, i, 1);
    FactsAreIn(c, i, 2);
    Scored(c, w, 4 + 4 * i, i + 1, if i == c.n - 2 then c.nv else c.nk + c.nv, i != c.n - 2);
  }

  lemma EmptyLines(c: Config, w: nat)
    requires ConfigOk(c)
    ensures TagLines(Pipeline(c), w, TwoSlots(c), []) == 0
  {
  }

  lemma Memory2Lines(c: Config, w: nat, i: nat)
    requires ConfigOk(c) && i + 2 < c.n
    ensures var a := Fetch(c, VTile, i + 1) + Fetch(c, AuxTile, i + 2);
      && TagLines(Pipeline(c), w, TwoSlots(c), a) == c.nv + c.nb
      && TagLines(Pipeline(c), w, TwoSlots(c), a + [Tag(KTile, i + 3)]) == c.nv + c.nb + c.nk
  {
    hide TagLines;
    var a := Fetch(c, VTile, i + 1) + Fetch(c, AuxTile, i + 2);
    EmptyLines(c, w);
    FetchLines(c, w, [], VTile, i + 1);
    FetchLines(c, w, Fetch(c, VTile, i + 1), AuxTile, i + 2);
    assert [] + Fetch(c, VTile, i + 1) == Fetch(c, VTile, i + 1);
    TagLinesAppend(Pipeline(c), w, TwoSlots(c), a, Tag(KTile, i + 3));
  }

  lemma Memory2(c: Config, w: nat, i: nat)
    requires ConfigOk(c) && i < c.n - 3 && KnownAt(c, w, 5 + 4 * i)
    ensures SegOk(c, w, 5 + 4 * i)
  {
    hide Know, LocalInstr, TrackAt, TagLines, FactsAt, Seg, FillsKind;
    Filled(c, VTile);
    var s := 5 + 4 * i;
    var p, l, first, last := Pipeline(c), TwoSlots(c), FactsIn(c, i, 2), FactsIn(c, i, 3);
    SegIsCluster(c, w, i, 2);
    FactsAreIn(c, i, 2);
    FactsAreIn(c, i, 3);
    Memory2Lines(c, w, i);
    var rest := Fetch(c, VTile, i + 1) + Fetch(c, AuxTile, i + 2);
    assert first.vm == Fetch(c, KTile, i + 2) + rest;
    var f := FetchAndRead(p, w, l, s, 0, first, first, last, KTile, VTile, c.nk + c.nv, Fetch(c, KTile, i + 2), rest);
    DoBarrier(p, w, l, s, 3, f, first, last);
  }

  /** The last two V reads before the closing clusters prefetch nothing. */
  lemma Memory2Tail(c: Config, w: nat, i: nat)
    requires ConfigOk(c) && c.n - 3 <= i < c.n - 1 && KnownAt(c, w, 5 + 4 * i)
    ensures SegOk(c, w, 5 + 4 * i)
  {
    hide Know, LocalInstr, TrackAt, TagLines, FactsAt, Seg, FillsKind;
    Filled(c, VTile);
    var s := 5 + 4 * i;
    var p, l, first, last := Pipeline(c), TwoSlots(c), FactsIn(c, i, 2), FactsIn(c, i, 3);
    SegIsCluster(c, w, i, 2);
    FactsAreIn(c, i, 2);
    FactsAreIn(c, i, 3);
    var f := DoRead(p, w, l, s, 0, first, first, last, VTile);
    if i == c.n - 3 {
      Memory2Lines(c, w, i);
      assert last.vm == Fetch(c, VTile, i + 1) + Fetch(c, AuxTile, i + 2);
      assert f.vm == Fetch(c, KTile, i + 2) + last.vm;
      f := DoWait(p, w, l, s, 1, f, first, last, Fetch(c, KTile, i + 2), last.vm);
    } else {
      assert f.vm == f.vm + [];
      f := DoWait(p, w, l, s, 1, f, first, last, f.vm, []);
    }
    DoBarrier(p, w, l, s, 2, f, first, last);
  }

  lemma Compute3(c: Config, w: nat, i: nat)
    requires ConfigOk(c) && i < c.n - 1 && KnownAt(c, w, 6 + 4 * i)
    ensures SegOk(c, w, 6 + 4 * i)
  {
    hide Know, LocalInstr, TrackAt, FactsAt, Seg;
    SegIsCluster(c, w, i, 3);
    FactsAreIn(c, i, 3);
    FactsAreIn(c, i + 1, 0);
    DoBarrier(Pipeline(c), w, TwoSlots(c), 6 + 4 * i, 0, FactsIn(c, i, 3), FactsIn(c, i, 3), FactsIn(c, i + 1, 0));
  }

  /** The two closing segments: the last V tile, then the barrier that closes the phase shift. */
  lemma Closing(c: Config, w: nat, r: nat)
    requires ConfigOk(c) && r < 3 && KnownAt(c, w, 3 + 4 * (c.n - 1) + r)
    ensures SegOk(c, w, 3 + 4 * (c.n - 1) + r)
  {
    hide Know, LocalInstr, TrackAt, FactsAt, Seg, FillsKind;
    Filled(c, VTile);
    var i := c.n - 1;
    var s := 3 + 4 * i + r;
    var p, l, first, last := Pipeline(c), TwoSlots(c), FactsIn(c, i, r), FactsIn(c, i, r + 1);
    FactsAreIn(c, i, r);
    FactsAreIn(c, i, r + 1);
    if r == 0 {
      SegIsCluster(c, w, i, 0);
      var f := DoRead(p, w, l, s, 0, first, first, last, VTile);
      DoBarrier(p, w, l, s, 1, f, first, last);
    } else if r == 1 {
      SegIsCluster(c, w, i, 1);
      if CloseBarrier(c, w) != [] {
        DoBarrier(p, w, l, s, 0, first, first, last);
      }
    } else {
      EndIsEmpty(c, w);
    }
  }

  lemma EndIsEmpty(c: Config, w: nat)
    requires ConfigOk(c)
    ensures Seg(c, w, 4 * c.n + 1) == []
  {
  }

  lemma SegmentKeeps(c: Config, w: nat, s: nat)
    requires ConfigOk(c) && s <= 4 * c.n + 1 && KnownAt(c, w, s)
    ensures SegOk(c, w, s)
  {
    hide KnownAt, SegOk;
    if s < 3 {
      if s == 0 { Prologue0(c, w); } else if s == 1 { Prologue1(c, w); } else { Prologue2(c, w); }
    } else {
      var i, r := (s - 3) / 4, (s - 3) % 4;
      assert s == 3 + 4 * i + r;
      if i == c.n - 1 { Closing(c, w, r); }
      else if r == 0 { Memory0(c, w, i); }
      else if r == 1 { Compute1(c, w, i); }
      else if r == 3 { Compute3(c, w, i); }
      else if i < c.n - 3 { Memory2(c, w, i); }
      else { Memory2Tail(c, w, i); }
    }
  }

  lemma {:induction false} Knows(c: Config, w: nat, s: nat)
    requires ConfigOk(c) && s <= 4 * c.n + 1
    ensures KnownAt(c, w, s)
  {
    if s == 0 {
      Start(Pipeline(c), w, TwoSlots(c));
    } else {
      Knows(c, w, s - 1);
      SegmentKeeps(c, w, s - 1);
    }
  }

  // ------------------------------------------------------------ barriers, phase by phase

  /** Barriers passed at the start of segment `s`. Group A of a staggered run is one behind. */
  function Passed(c: Config, w: nat, s: nat): nat
    requires ConfigOk(c)
  {
    if c.stagger && !GroupB(c, w) && s >= 2 then s - 1
    else if c.stagger && GroupB(c, w) && s == 4 * c.n + 1 then s - 1
    else s
  }

  lemma BarrierAt(c: Config, w: nat, s: nat)
    requires ConfigOk(c) && s <= 4 * c.n
    ensures EndsInBarrier(Seg(c, w, s)) <==>
      !(c.stagger && ((!GroupB(c, w) && s == 1) || (GroupB(c, w) && s == 4 * c.n)))
  {
    if s == 1 {
      Prologue1Code(c, w, if c.nb > 0 then 1 else 0);
    } else if s >= 3 {
      SegIsCluster(c, w, (s - 3) / 4, (s - 3) % 4);
    }
  }

  lemma {:induction false} BarsAre(c: Config, w: nat, s: nat)
    requires ConfigOk(c) && s <= 4 * c.n + 1
    ensures Bars(Pipeline(c), w, s) == Passed(c, w, s)
  {
    hide Seg;
    if s > 0 {
      BarsAre(c, w, s - 1);
      BarrierAt(c, w, s - 1);
    }
  }

  /** MAIN. Both groups execute the same number of barriers. */
  lemma EqualBarriers(c: Config, w: nat, w': nat)
    requires ConfigOk(c)
    ensures Bars(Pipeline(c), w, 4 * c.n + 1) == Bars(Pipeline(c), w', 4 * c.n + 1)
  {
    BarsAre(c, w, 4 * c.n + 1);
    BarsAre(c, w', 4 * c.n + 1);
  }

  // ------------------------------------------------- what others may do during a read

  /** The only tiles a cluster requests: V(i+1) and, first of all, K 2; a bias tile; K(i+3). */
  lemma ClusterLoads(c: Config, w: nat, i: nat, r: nat, a: Instr)
    requires ConfigOk(c) && i < c.n && r < 4 && 3 + 4 * i + r <= 4 * c.n && a in Cluster(c, w, i, r) && a.Load?
    ensures a.copy.region.kind != AuxTile ==>
      || (r == 0 && i < c.n - 1 && a.copy == CopyOf(c, VTile, i + 1))
      || (r == 0 && i == 0 && a.copy == CopyOf(c, KTile, 2))
      || (r == 2 && i < c.n - 3 && a.copy == CopyOf(c, KTile, i + 3))
  {
  }

  lemma RingKeepsK(c: Config, i: nat, r: nat, x: nat)
    requires ConfigOk(c) && i < c.n && 1 <= x < c.n
    requires (r == 3 && x == i + 2) || (r <= 1 && x == i + 1)
    ensures Recent(TwoSlots(c), FactsIn(c, i, r).issued, KTile, x)
    ensures FactsIn(c, i, r).Free(TwoSlots(c), KTile, x)
  {
  }

  lemma SteadyK(c: Config, w: nat, i: nat, r: nat, x: nat)
    requires ConfigOk(c) && i < c.n && r < 4 && 3 + 4 * i + r <= 4 * c.n && 1 <= x < c.n
    requires (r == 3 && x == i + 2) || (r <= 1 && x == i + 1)
    ensures Steady(TwoSlots(c), FactsIn(c, i, r), Cluster(c, w, i, r), KTile, x)
  {
    RingKeepsK(c, i, r, x);
    hide Cluster, FactsIn, Recent;
    if a :| a in Cluster(c, w, i, r) && a.Load? && a.copy.region == CopyOf(c, KTile, x).region {
      ClusterLoads(c, w, i, r, a);
    }
  }

  lemma RingKeepsV(c: Config, i: nat, r: nat, x: nat)
    requires ConfigOk(c) && i < c.n && r < 4 && x < c.n
    requires (r >= 1 && x == i && i < c.n - 1) || (x == c.n - 1 && ((i == c.n - 2 && r == 3) || (i == c.n - 1 && r <= 1)))
    ensures Recent(TwoSlots(c), FactsIn(c, i, r).issued, VTile, x)
    ensures FactsIn(c, i, r).Free(TwoSlots(c), VTile, x)
  {
  }

  lemma SteadyV(c: Config, w: nat, i: nat, r: nat, x: nat)
    requires ConfigOk(c) && i < c.n && r < 4 && x < c.n
    requires (r >= 1 && x == i && i < c.n - 1) || (x == c.n - 1 && ((i == c.n - 2 && r == 3) || (i == c.n - 1 && r <= 1)))
    ensures Steady(TwoSlots(c), FactsIn(c, i, r), Cluster(c, w, i, r), VTile, x)
  {
    RingKeepsV(c, i, r, x);
    hide Cluster, FactsIn, Recent;
    if a :| a in Cluster(c, w, i, r) && a.Load? && a.copy.region == CopyOf(c, VTile, x).region {
      ClusterLoads(c, w, i, r, a);
    }
  }

  /** K tile 0 is read in segment 1, while others are in segment 1 or 2. */
  lemma SteadyFirst(c: Config, w: nat, s: nat)
    requires ConfigOk(c) && 1 <= s <= 2
    ensures Steady(TwoSlots(c), FactsAt(c, s), Seg(c, w, s), KTile, 0)
  {
    if s == 1 {
      Prologue1Code(c, w, if c.nb > 0 then 1 else 0);
    }
  }

  /** K tile 1 is read in segment 3, while others may still be in segment 2. */
  lemma SteadySecond(c: Config, w: nat)
    requires ConfigOk(c)
    ensures Steady(TwoSlots(c), FactsAt(c, 2), Seg(c, w, 2), KTile, 1)
  {
  }

  function FactsOf(c: Config): (nat, nat) -> Facts {
    (w: nat, s: nat) => FactsAt(c, s)
  }

  lemma ClusterReads(c: Config, w: nat, i: nat, r: nat, a: Instr)
    requires ConfigOk(c) && i < c.n && r < 4 && a in Cluster(c, w, i, r) && a.Read?
    ensures a.region.kind == KTile || a.region.kind == VTile
  {
  }

  lemma ReadsKOrV(c: Config, w: nat, s: nat, a: Instr)
    requires ConfigOk(c) && s <= 4 * c.n + 1 && a in Seg(c, w, s) && a.Read?
    ensures a.region.kind == KTile || a.region.kind == VTile
  {
    if s >= 3 {
      hide Seg, Cluster;
      var i, r := (s - 3) / 4, (s - 3) % 4;
      if s == 4 * c.n + 1 {
        EndIsEmpty(c, w);
      } else {
        SegIsCluster(c, w, i, r);
        ClusterReads(c, w, i, r, a);
      }
    }
  }

  /** Segment 1 reads K tile 0, segment 3+4i reads K tile i+1 and segment 5+4i V tile i,
      except that the last V tile is read in segment 4n-1. */
  lemma ReadTile(c: Config, w: nat, s: nat, kind: Kind, x: nat)
    requires ConfigOk(c) && s <= 4 * c.n + 1 && ReadHere(Pipeline(c), FactsOf(c), w, s, kind, x)
    ensures (kind == KTile && x < c.n && s == (if x == 0 then 1 else 4 * x - 1))
      || (kind == VTile && x < c.n && s == (if x == c.n - 1 then 4 * c.n - 1 else 4 * x + 5))
  {
    hide Seg, FactsAt, FactsIn;
    var a :| a in Seg(c, w, s) && a.Read? && a.region.kind == kind;
    ReadsKOrV(c, w, s, a);
    if s < 3 {
      ReadTileEarly(c, s, kind, x);
    } else {
      ReadTileIn(c, (s - 3) / 4, (s - 3) % 4, kind, x);
    }
  }

  lemma ReadTileEarly(c: Config, s: nat, kind: Kind, x: nat)
    requires ConfigOk(c) && s < 3 && (kind == KTile || kind == VTile)
    requires FactsAt(c, s).consumed.Of(kind) <= x < FactsAt(c, s + 1).consumed.Of(kind)
    ensures kind == KTile && s == 1 && x == 0
  {
  }

  lemma ReadTileIn(c: Config, i: nat, r: nat, kind: Kind, x: nat)
    requires ConfigOk(c) && r < 4 && 3 + 4 * i + r <= 4 * c.n + 1 && (kind == KTile || kind == VTile)
    requires FactsAt(c, 3 + 4 * i + r).consumed.Of(kind) <= x < FactsAt(c, 4 + 4 * i + r).consumed.Of(kind)
    ensures var s := 3 + 4 * i + r;
      || (kind == KTile && 0 < x < c.n && s == 4 * x - 1)
      || (kind == VTile && x < c.n && s == (if x == c.n - 1 then 4 * c.n - 1 else 4 * x + 5))
  {
    hide FactsAt, FactsIn;
    FactsAreIn(c, i, r);
    if r == 3 {
      FactsAreIn(c, i + 1, 0);
      NothingIn(c, i, kind);
    } else {
      FactsAreIn(c, i, r + 1);
      ConsumedIn(c, i, r, kind, x);
    }
  }

  lemma ConsumedIn(c: Config, i: nat, r: nat, kind: Kind, x: nat)
    requires ConfigOk(c) && i < c.n && r < 3 && (kind == KTile || kind == VTile)
    requires FactsIn(c, i, r).consumed.Of(kind) <= x < FactsIn(c, i, r + 1).consumed.Of(kind)
    ensures x < c.n
    ensures (kind == KTile && r == 0 && x == i + 1)
      || (kind == VTile && ((r == 2 && x == i && i < c.n - 1) || (r == 0 && i == x == c.n - 1)))
  {
  }

  lemma NothingIn(c: Config, i: nat, kind: Kind)
    requires ConfigOk(c) && i < c.n - 1 && (kind == KTile || kind == VTile)
    ensures FactsIn(c, i, 3).consumed.Of(kind) == FactsIn(c, i + 1, 0).consumed.Of(kind)
  {
  }

  lemma Near(c: Config, w: nat, s: nat, w': nat, s': nat)
    requires ConfigOk(c) && 1 <= s <= 4 * c.n - 1 && s <= 4 * c.n + 1 && s' <= 4 * c.n + 1
    requires Together(Pipeline(c), w, s, w', s')
    ensures s - 1 <= s' <= s + 1 && (s == 1 ==> s' >= 1)
  {
    BarsAre(c, w, s);
    BarsAre(c, w', s');
  }

  lemma SteadyNear(c: Config, w': nat, s: nat, s': nat, kind: Kind, x: nat)
    requires ConfigOk(c) && 1 <= s <= 4 * c.n - 1 && s - 1 <= s' <= s + 1 && (s == 1 ==> s' >= 1)
    requires (kind == KTile && x < c.n && s == (if x == 0 then 1 else 4 * x - 1))
      || (kind == VTile && x < c.n && s == (if x == c.n - 1 then 4 * c.n - 1 else 4 * x + 5))
    ensures Steady(TwoSlots(c), FactsAt(c, s'), Seg(c, w', s'), kind, x)
  {
    hide Seg, Cluster, Steady, FactsIn, FactsAt;
    if s' >= 3 {
      var i, r := (s' - 3) / 4, (s' - 3) % 4;
      FactsAreIn(c, i, r);
      SegIsCluster(c, w', i, r);
      if kind == KTile { SteadyK(c, w', i, r, x); } else { SteadyV(c, w', i, r, x); }
    } else if s == 1 {
      SteadyFirst(c, w', s');
    } else {
      SteadySecond(c, w');
    }
  }

  lemma SteadyAll(c: Config, w: nat, s: nat)
    requires ConfigOk(c) && w < c.waves && s <= 4 * c.n + 1
    ensures SteadyDuring(Pipeline(c), TwoSlots(c), FactsOf(c), w, s)
  {
    hide Steady, Seg, FactsAt, Bars;
    var p := Pipeline(c);
    forall kind, x: nat, w': nat, s': nat | ReadHere(p, FactsOf(c), w, s, kind, x) && Together(p, w, s, w', s')
      ensures Steady(TwoSlots(c), FactsOf(c)(w', s'), p.code(w', s'), kind, x)
    {
      ReadTile(c, w, s, kind, x);
      Near(c, w, s, w', s');
      SteadyNear(c, w', s, s', kind, x);
    }
  }

  lemma PipelineIsScheduled(c: Config)
    requires ConfigOk(c)
    ensures Scheduled(Pipeline(c), TwoSlots(c), FactsOf(c))
  {
    hide Know, LocalOk, SteadyDuring, Seg, FactsAt, Bars;
    var p := Pipeline(c);
    forall w, s | 0 <= w < p.waves && 0 <= s <= p.segs(w)
      ensures Know(p, w, TwoSlots(c), TrackAt(p, w, s, 0), FactsOf(c)(w, s))
      ensures LocalOk(p, w, TwoSlots(c), s, FactsOf(c)(w, s), FactsOf(c)(w, s + 1))
      ensures SteadyDuring(p, TwoSlots(c), FactsOf(c), w, s)
    {
      Knows(c, w, s);
      SegmentKeeps(c, w, s);
      SteadyAll(c, w, s);
    }
    forall w, w' | 0 <= w < p.waves && 0 <= w' < p.waves
      ensures p.code(w, p.segs(w)) == [] && Bars(p, w, p.segs(w)) == Bars(p, w', p.segs(w'))
    {
      EndIsEmpty(c, w);
      EqualBarriers(c, w, w');
    }
  }

  // -------------------------------------------------------------------- main results

  /** MAIN. Whatever the interleaving and the DMA latencies, each wave reads the K, V and
      bias tiles t0, t0+1, .. once each, in order, every one complete, and a wave that has
      finished has read all n of them. */
  lemma TilesInOrder(c: Config, steps: seq<Step>, w: nat, kind: Kind)
    requires ConfigOk(c) && CanRun(Pipeline(c), Init(Pipeline(c)), steps) && w < c.waves && kind != VtStage
    ensures ReadsAll(Pipeline(c), TwoSlots(c), steps, w, kind, if kind == AuxTile && c.nb == 0 then 0 else c.n)
  {
    hide Scheduled, ReadsAll;
    PipelineIsScheduled(c);
    ReadsInOrder(Pipeline(c), TwoSlots(c), FactsOf(c), steps, w, kind);
    FactsAreIn(c, c.n - 1, 2);
  }

  /** MAIN. While a wave still has to read a region before its next barrier, no copy issued
      by any wave can be writing to it. */
  lemma NoTileOverwritten(c: Config, steps: seq<Step>, u: nat, pos: nat, r: Region, w: nat)
    requires ConfigOk(c) && CanRun(Pipeline(c), Init(Pipeline(c)), steps) && u < c.waves && w < c.waves
    requires var st := Final(Pipeline(c), Init(Pipeline(c)), steps);
      |st| == c.waves && st[u].seg <= 4 * c.n + 1 && pos < |Seg(c, u, st[u].seg)| && Seg(c, u, st[u].seg)[pos] == Read(r)
    ensures !InFlight(Final(Pipeline(c), Init(Pipeline(c)), steps)[w], r)
  {
    hide Scheduled, Seg;
    PipelineIsScheduled(c);
    ScheduledIsValid(Pipeline(c), TwoSlots(c), FactsOf(c));
    NoOverwriteWhileReadable(Pipeline(c), steps, u, pos, r, w);
  }
}
