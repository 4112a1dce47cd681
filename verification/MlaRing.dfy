/** The MLA decode kernel's two KV buffers for one work item: tile t lives in buffer t mod 2,
    tile t+1 is fetched while tile t is scored, V is read from the same buffer (gfx950) or
    from a transposed copy (gfx942), and the last tile's missing rows are zero-filled. */
module MlaRing {
  import opened Machine
  import opened Rings

  /** `partial`: the last tile has fewer keys than rows; the rows it zero-fills form region
      AuxTile of a buffer, the others KTile. `tailWave` owns at least one of them. */
  datatype Config = Config(waves: nat, gfx950: bool, tiles: nat, partial: bool, tailWave: nat,
                           headLines: nat -> nat, tailLines: nat -> nat, vtLines: nat -> nat)

  predicate ConfigOk(c: Config) {
    && 0 < c.waves && 1 <= c.tiles && c.headLines(0) > 0 && c.vtLines(0) > 0
    && c.tailWave < c.waves && c.tailLines(c.tailWave) > 0
  }

  function Buffers(c: Config): Layout {
    Layout(0, 0, (kind: Kind) => match kind
      case KTile => 2
      case AuxTile => if c.partial then 2 else 0
      case VtStage => if c.gfx950 then 0 else 1
      case VTile => 0,
      (kind: Kind) => kind == KTile || kind == AuxTile)
  }

  // --------------------------------------------------------------------- the program

  function Buf(kind: Kind, t: nat): Region { Region(kind, t % 2) }

  /** All rows of tile `t` into buffer t mod 2; rows past the end are stored as zeros. */
  function LoadTile(c: Config, t: nat): seq<Instr> {
    [Load(Vm, Copy(Buf(KTile, t), t))]
    + if c.partial then [Load(if t + 1 == c.tiles then Lgkm else Vm, Copy(Buf(AuxTile, t), t))] else []
  }

  function ReadTile(c: Config, t: nat): seq<Instr> {
    [Read(Buf(KTile, t))] + if c.partial then [Read(Buf(AuxTile, t))] else []
  }

  const DRAIN: seq<Instr> := [Wait(Vm, 0), Wait(Lgkm, 0), Barrier]
  const MID_BARRIER: seq<Instr> := [Wait(Lgkm, 0), Barrier]

  /** Scores of tile `t`, with the prefetch of tile t+1; gfx942 also copies V, transposed. */
  function Prefetch(c: Config, t: nat): seq<Instr> { if t + 1 < c.tiles then LoadTile(c, t + 1) else [] }
  function Stage(c: Config, t: nat): seq<Instr> {
    if c.gfx950 then [] else ReadTile(c, t) + [Load(Lgkm, Copy(Region(VtStage, 0), t))]
  }
  function Gemm1(c: Config, t: nat): seq<Instr> { Prefetch(c, t) + ReadTile(c, t) + Stage(c, t) + MID_BARRIER }

  /** P times V of tile `t`, then the drain that starts the next tile. */
  function ReadV(c: Config, t: nat): seq<Instr> { if c.gfx950 then ReadTile(c, t) else [Read(Region(VtStage, 0))] }
  function Gemm2(c: Config, t: nat): seq<Instr> { ReadV(c, t) + if t + 1 < c.tiles then DRAIN else [] }

  function Seg(c: Config, s: nat): seq<Instr> {
    if s == 0 then LoadTile(c, 0) + DRAIN
    else if s > 2 * c.tiles then []
    else if s % 2 == 1 then Gemm1(c, (s - 1) / 2)
    else Gemm2(c, (s - 2) / 2)
  }

  function LinesOf(c: Config, w: nat, r: Region): nat {
    match r.kind
    case KTile => c.headLines(w)
    case AuxTile => if c.partial then c.tailLines(w) else 0
    case VtStage => c.vtLines(w)
    case VTile => 0
  }

  function Pipeline(c: Config): Prog {
    Prog(c.waves, (w: nat) => 2 * c.tiles + 1, (w: nat, s: nat) => Seg(c, s), (w: nat, r: Region) => LinesOf(c, w, r))
  }

  // ----------------------------------------------------------------------- facts

  function Aux(c: Config, n: nat): nat { if c.partial then n else 0 }
  function Vt(c: Config, n: nat): nat { if c.gfx950 then 0 else n }
  function Cap(c: Config, n: nat): nat { if n < c.tiles then n else c.tiles }

  /** At the start of tile `t`: it has landed, and everything before it is consumed. */
  function TileFacts(c: Config, t: nat): Facts {
    Facts(Counts(Cap(c, t + 1), 0, Aux(c, Cap(c, t + 1)), Vt(c, t)), Counts(2 * t, 0, Aux(c, 2 * t), Vt(c, t)), [], [])
  }

  /** Between the scores and the PV product of tile `t`: tile t+1 may be in flight. */
  function MidFacts(c: Config, t: nat): Facts {
    var read := if c.gfx950 then 2 * t + 1 else 2 * t + 2;
    Facts(Counts(Cap(c, t + 2), 0, Aux(c, Cap(c, t + 2)), Vt(c, t + 1)), Counts(read, 0, Aux(c, read), Vt(c, t)),
          if t + 1 < c.tiles then [Tag(KTile, t + 1)] + (if c.partial && t + 2 < c.tiles then [Tag(AuxTile, t + 1)] else []) else [], [])
  }

  function FactsAt(c: Config, s: nat): Facts {
    if s == 0 then NONE
    else if s > 2 * c.tiles then TileFacts(c, c.tiles)
    else if s % 2 == 1 then TileFacts(c, (s - 1) / 2)
    else MidFacts(c, (s - 2) / 2)
  }

  function FactsOf(c: Config): (nat, nat) -> Facts { (w: nat, s: nat) => FactsAt(c, s) }

  /** `block` sits at position `pos` of `code`. */
  predicate CodeAt(code: seq<Instr>, pos: nat, block: seq<Instr>) {
    pos + |block| <= |code| && forall i :: 0 <= i < |block| ==> code[pos + i] == block[i]
  }

  ghost predicate Upto(c: Config, w: nat, s: nat, first: Facts, last: Facts, start: nat, end: nat, f: Facts) {
    && end <= |Seg(c, s)|
    && Checked(Pipeline(c), w, Buffers(c), s, first, last, start, end)
    && Know(Pipeline(c), w, Buffers(c), TrackAt(Pipeline(c), w, s, end), f)
  }

  lemma Joins(c: Config, w: nat, s: nat, first: Facts, last: Facts, start: nat, mid: nat, end: nat, f: Facts, f': Facts)
    requires Upto(c, w, s, first, last, start, mid, f) && Upto(c, w, s, first, last, mid, end, f')
    ensures Upto(c, w, s, first, last, start, end, f')
  {
  }

  function TileTags(c: Config, t: nat): (seq<Tag>, seq<Tag>) {
    if !c.partial then ([Tag(KTile, t)], [])
    else if t + 1 == c.tiles then ([Tag(KTile, t)], [Tag(AuxTile, t)])
    else ([Tag(KTile, t), Tag(AuxTile, t)], [])
  }

  lemma LoadTileRule(c: Config, w: nat, s: nat, pos: nat, f: Facts, first: Facts, last: Facts, t: nat) returns (f': Facts)
    requires CodeAt(Seg(c, s), pos, LoadTile(c, t)) && Upto(c, w, s, first, last, pos, pos, f)
    requires f.issued.k == t && f.issued.aux == Aux(c, t) && f.vm == f.lgkm == []
    ensures f' == Facts(Counts(t + 1, f.issued.v, Aux(c, t + 1), f.issued.stage), f.consumed, TileTags(c, t).0, TileTags(c, t).1)
    ensures Upto(c, w, s, first, last, pos, pos + |LoadTile(c, t)|, f')
  {
    hide Know, LocalInstr, TrackAt, Seg;
    var code := Seg(c, s);
    assert code[pos] == LoadTile(c, t)[0];
    f' := DoLoad(Pipeline(c), w, Buffers(c), s, pos, f, first, last, Vm, KTile);
    if c.partial {
      assert code[pos + 1] == LoadTile(c, t)[1];
      f' := DoLoad(Pipeline(c), w, Buffers(c), s, pos + 1, f', first, last, if t + 1 == c.tiles then Lgkm else Vm, AuxTile);
    }
  }

  lemma FillAll(c: Config, kind: Kind)
    requires ConfigOk(c) && kind != VTile && (kind == AuxTile ==> c.partial)
    ensures FillsKind(Pipeline(c), kind)
  {
    forall b: nat ensures Fills(Pipeline(c), Region(kind, b)) {
      assert Pipeline(c).lines(if kind == AuxTile then c.tailWave else 0, Region(kind, b)) > 0;
    }
  }

  /** The n-th reading of tile `t` (n = 2t or 2t+1). */
  lemma ReadTileRule(c: Config, w: nat, s: nat, pos: nat, f: Facts, first: Facts, last: Facts, t: nat) returns (f': Facts)
    requires ConfigOk(c) && CodeAt(Seg(c, s), pos, ReadTile(c, t)) && Upto(c, w, s, first, last, pos, pos, f)
    requires var n := f.consumed.k;
      && n / 2 == t && f.consumed.aux == Aux(c, n) && t < f.issued.k <= t + 2 && f.issued.aux == Aux(c, f.issued.k)
      && first.consumed.k <= n < last.consumed.k
      && first.consumed.aux <= f.consumed.aux && (c.partial ==> f.consumed.aux < last.consumed.aux)
    ensures f' == f.(consumed := Counts(f.consumed.k + 1, f.consumed.v, Aux(c, f.consumed.k + 1), f.consumed.stage))
    ensures Upto(c, w, s, first, last, pos, pos + |ReadTile(c, t)|, f')
  {
    hide Know, LocalInstr, TrackAt, Seg, FillsKind;
    var code := Seg(c, s);
    assert code[pos] == ReadTile(c, t)[0];
    FillAll(c, KTile);
    f' := DoRead(Pipeline(c), w, Buffers(c), s, pos, f, first, last, KTile);
    if c.partial {
      assert code[pos + 1] == ReadTile(c, t)[1];
      FillAll(c, AuxTile);
      f' := DoRead(Pipeline(c), w, Buffers(c), s, pos + 1, f', first, last, AuxTile);
    }
  }

  // ------------------------------------------------------------------- the segments

  ghost predicate SegOk(c: Config, w: nat, s: nat) {
    var p := Pipeline(c);
    && LocalOk(p, w, Buffers(c), s, FactsAt(c, s), FactsAt(c, s + 1))
    && Know(p, w, Buffers(c), TrackAt(p, w, s, |p.code(w, s)|), FactsAt(c, s + 1))
  }

  ghost predicate KnownAt(c: Config, w: nat, s: nat) {
    Know(Pipeline(c), w, Buffers(c), TrackAt(Pipeline(c), w, s, 0), FactsAt(c, s))
  }

  lemma Begin(c: Config, w: nat, s: nat, first: Facts, last: Facts, pos: nat, f: Facts)
    requires pos <= |Seg(c, s)| && Know(Pipeline(c), w, Buffers(c), TrackAt(Pipeline(c), w, s, pos), f)
    ensures Upto(c, w, s, first, last, pos, pos, f)
  {
    hide Know, TrackAt, Seg;
  }

  lemma Finish(c: Config, w: nat, s: nat)
    requires Upto(c, w, s, FactsAt(c, s), FactsAt(c, s + 1), 0, |Seg(c, s)|, FactsAt(c, s + 1))
    ensures SegOk(c, w, s)
  {
    hide Know, TrackAt, Seg, FactsAt, LocalInstr;
  }

  lemma DrainRule(c: Config, w: nat, s: nat, pos: nat, f: Facts, first: Facts, last: Facts)
    requires CodeAt(Seg(c, s), pos, DRAIN) && |Seg(c, s)| == pos + 3 && Upto(c, w, s, first, last, pos, pos, f)
    ensures Upto(c, w, s, first, last, pos, |Seg(c, s)|, Facts(f.issued, f.consumed, [], []))
  {
    hide Know, LocalInstr, TrackAt, Seg;
    var code := Seg(c, s);
    assert code[pos] == DRAIN[0] && code[pos + 1] == DRAIN[1] && code[pos + 2] == DRAIN[2];
    var f' := DoDrain(Pipeline(c), w, Buffers(c), s, pos, f, first, last);
  }

  lemma MidBarrierRule(c: Config, w: nat, s: nat, pos: nat, f: Facts, first: Facts, last: Facts)
    requires CodeAt(Seg(c, s), pos, MID_BARRIER) && |Seg(c, s)| == pos + 2 && Upto(c, w, s, first, last, pos, pos, f)
    ensures Upto(c, w, s, first, last, pos, |Seg(c, s)|, Facts(f.issued, f.consumed, f.vm, []))
  {
    hide Know, LocalInstr, TrackAt, Seg;
    var code := Seg(c, s);
    assert code[pos] == MID_BARRIER[0] && code[pos + 1] == MID_BARRIER[1];
    assert f.lgkm == f.lgkm + [];
    var f' := DoWait(Pipeline(c), w, Buffers(c), s, pos, f, first, last, f.lgkm, []);
    DoBarrier(Pipeline(c), w, Buffers(c), s, pos + 1, f', first, last);
  }

  lemma FirstCode(c: Config)
    ensures CodeAt(Seg(c, 0), 0, LoadTile(c, 0)) && CodeAt(Seg(c, 0), |LoadTile(c, 0)|, DRAIN)
    ensures |Seg(c, 0)| == |LoadTile(c, 0)| + 3
  {
  }

  lemma FirstTile(c: Config, w: nat)
    requires ConfigOk(c) && KnownAt(c, w, 0)
    ensures SegOk(c, w, 0)
  {
    hide Know, TrackAt, Checked, Upto, Seg, LoadTile, SegOk, CodeAt;
    FirstCode(c);
    var first, last, k := FactsAt(c, 0), FactsAt(c, 1), |LoadTile(c, 0)|;
    Begin(c, w, 0, first, last, 0, first);
    var f := LoadTileRule(c, w, 0, 0, first, first, last, 0);
    Begin0(c, w, 0, first, last, 0, k, f);
    DrainRule(c, w, 0, k, f, first, last);
    Joins(c, w, 0, first, last, 0, k, |Seg(c, 0)|, f, last);
    Finish(c, w, 0);
  }

  /** Facts at the end of one stretch start the next. */
  lemma Begin0(c: Config, w: nat, s: nat, first: Facts, last: Facts, start: nat, pos: nat, f: Facts)
    requires Upto(c, w, s, first, last, start, pos, f)
    ensures Upto(c, w, s, first, last, pos, pos, f)
  {
    hide Know, TrackAt, Seg, LocalInstr;
  }

  lemma ConcatAt(a: seq<Instr>, b: seq<Instr>, d: seq<Instr>)
    ensures CodeAt(a + b + d, |a|, b)
  {
  }

  lemma Gemm1Code(c: Config, t: nat)
    requires t < c.tiles
    ensures var code, a, b, d := Seg(c, 1 + 2 * t), Prefetch(c, t), ReadTile(c, t), Stage(c, t);
      && |code| == |a| + |b| + |d| + 2
      && CodeAt(code, 0, a) && CodeAt(code, |a|, b) && CodeAt(code, |a| + |b|, d) && CodeAt(code, |a| + |b| + |d|, MID_BARRIER)
  {
    hide Prefetch, ReadTile, Stage;
    assert (1 + 2 * t - 1) / 2 == t;
    assert Seg(c, 1 + 2 * t) == Gemm1(c, t);
    FourParts(Prefetch(c, t), ReadTile(c, t), Stage(c, t), MID_BARRIER);
  }

  lemma FourParts(a: seq<Instr>, b: seq<Instr>, d: seq<Instr>, e: seq<Instr>)
    ensures var code := a + b + d + e;
      CodeAt(code, 0, a) && CodeAt(code, |a|, b) && CodeAt(code, |a| + |b|, d) && CodeAt(code, |a| + |b| + |d|, e)
  {
    assert a + b + d + e == [] + a + (b + d + e) == a + b + (d + e) == (a + b + d) + e + [];
    ConcatAt([], a, b + d + e);
    ConcatAt(a, b, d + e);
    ConcatAt(a + b, d, e);
    ConcatAt(a + b + d, e, []);
  }

  /** gfx942 reads the tile once more and stores it transposed. */
  lemma StageRule(c: Config, w: nat, s: nat, pos: nat, f: Facts, first: Facts, last: Facts, t: nat) returns (f': Facts)
    requires ConfigOk(c) && !c.gfx950 && CodeAt(Seg(c, s), pos, Stage(c, t)) && Upto(c, w, s, first, last, pos, pos, f)
    requires f.consumed.k == 2 * t + 1 && f.consumed.aux == Aux(c, 2 * t + 1) && t < f.issued.k <= t + 2 && f.issued.aux == Aux(c, f.issued.k)
    requires first.consumed.k <= 2 * t + 1 < last.consumed.k
    requires first.consumed.aux <= f.consumed.aux && (c.partial ==> f.consumed.aux < last.consumed.aux)
    requires f.issued.stage == t && forall g :: g in f.vm + f.lgkm ==> g.kind != VtStage
    ensures f' == Facts(f.issued.(stage := t + 1), Counts(2 * t + 2, f.consumed.v, Aux(c, 2 * t + 2), f.consumed.stage),
                        f.vm, f.lgkm + [Tag(VtStage, t)])
    ensures Upto(c, w, s, first, last, pos, pos + |Stage(c, t)|, f')
  {
    hide Know, LocalInstr, TrackAt, Seg, ReadTile, Upto, Checked;
    var k := |ReadTile(c, t)|;
    assert CodeAt(Seg(c, s), pos, ReadTile(c, t)) && Seg(c, s)[pos + k] == Load(Lgkm, Copy(Region(VtStage, 0), t)) by {
      assert Stage(c, t)[k] == Load(Lgkm, Copy(Region(VtStage, 0), t));
      assert forall i :: 0 <= i < k ==> Stage(c, t)[i] == ReadTile(c, t)[i];
    }
    var g := ReadTileRule(c, w, s, pos, f, first, last, t);
    f' := StoreVt(c, w, s, pos + k, g, first, last, t, pos);
  }

  lemma StoreVt(c: Config, w: nat, s: nat, pos: nat, f: Facts, first: Facts, last: Facts, t: nat, start: nat) returns (f': Facts)
    requires !c.gfx950 && pos < |Seg(c, s)| && Seg(c, s)[pos] == Load(Lgkm, Copy(Region(VtStage, 0), t))
    requires f.issued.stage == t && forall g :: g in f.vm + f.lgkm ==> g.kind != VtStage
    requires start <= pos && Upto(c, w, s, first, last, start, pos, f)
    ensures f' == Facts(f.issued.(stage := t + 1), f.consumed, f.vm, f.lgkm + [Tag(VtStage, t)])
    ensures Upto(c, w, s, first, last, start, pos + 1, f')
  {
    hide Know, LocalInstr, TrackAt, Seg;
    assert f.Free(Buffers(c), VtStage, t) by {
      assert forall g :: g in f.vm ==> g in f.vm + f.lgkm;
      assert forall g :: g in f.lgkm ==> g in f.vm + f.lgkm;
    }
    f' := DoLoad(Pipeline(c), w, Buffers(c), s, pos, f, first, last, Lgkm, VtStage);
  }

  lemma ScoreFacts(c: Config, t: nat)
    requires t < c.tiles
    ensures FactsAt(c, 1 + 2 * t) == TileFacts(c, t) && FactsAt(c, 2 + 2 * t) == MidFacts(c, t)
    ensures FactsAt(c, 3 + 2 * t) == TileFacts(c, t + 1)
  {
    assert (1 + 2 * t - 1) / 2 == t && (2 + 2 * t - 2) / 2 == t && (3 + 2 * t - 1) / 2 == t + 1;
  }

  lemma PrefetchPart(c: Config, w: nat, t: nat) returns (f: Facts)
    requires ConfigOk(c) && t < c.tiles && KnownAt(c, w, 1 + 2 * t)
    requires CodeAt(Seg(c, 1 + 2 * t), 0, Prefetch(c, t))
    ensures f == Facts(Counts(Cap(c, t + 2), 0, Aux(c, Cap(c, t + 2)), Vt(c, t)), TileFacts(c, t).consumed,
                       if t + 1 < c.tiles then TileTags(c, t + 1).0 else [], if t + 1 < c.tiles then TileTags(c, t + 1).1 else [])
    ensures f.vm == MidFacts(c, t).vm
    ensures Upto(c, w, 1 + 2 * t, TileFacts(c, t), MidFacts(c, t), 0, |Prefetch(c, t)|, f)
  {
    hide Know, TrackAt, Seg, LoadTile, FactsAt, Checked, LocalInstr;
    ScoreFacts(c, t);
    f := TileFacts(c, t);
    Begin(c, w, 1 + 2 * t, f, MidFacts(c, t), 0, f);
    if t + 1 < c.tiles {
      f := LoadTileRule(c, w, 1 + 2 * t, 0, f, f, MidFacts(c, t), t + 1);
    }
  }

  lemma StagePart(c: Config, w: nat, t: nat, pos: nat, f: Facts) returns (f': Facts)
    requires ConfigOk(c) && t < c.tiles && CodeAt(Seg(c, 1 + 2 * t), pos, Stage(c, t))
    requires Upto(c, w, 1 + 2 * t, TileFacts(c, t), MidFacts(c, t), pos, pos, f)
    requires f.issued == Counts(Cap(c, t + 2), 0, Aux(c, Cap(c, t + 2)), Vt(c, t)) && f.consumed == Counts(2 * t + 1, 0, Aux(c, 2 * t + 1), Vt(c, t))
    requires forall g :: g in f.vm + f.lgkm ==> g.kind != VtStage
    ensures f'.issued == MidFacts(c, t).issued && f'.consumed == MidFacts(c, t).consumed && f'.vm == f.vm
    ensures Upto(c, w, 1 + 2 * t, TileFacts(c, t), MidFacts(c, t), pos, pos + |Stage(c, t)|, f')
  {
    hide Know, TrackAt, Seg, Upto, CodeAt, LocalInstr;
    f' := f;
    if !c.gfx950 {
      f' := StageRule(c, w, 1 + 2 * t, pos, f, TileFacts(c, t), MidFacts(c, t), t);
    }
  }

  lemma Scores(c: Config, w: nat, t: nat)
    requires ConfigOk(c) && t < c.tiles && KnownAt(c, w, 1 + 2 * t)
    ensures SegOk(c, w, 1 + 2 * t)
  {
    hide Know, TrackAt, Seg, Upto, CodeAt, Checked, FactsAt, SegOk, Prefetch, ReadTile, Stage;
    var s, first, last := 1 + 2 * t, TileFacts(c, t), MidFacts(c, t);
    var k1 := |Prefetch(c, t)|;
    var k2 := k1 + |ReadTile(c, t)|;
    var k3 := k2 + |Stage(c, t)|;
    ScoreFacts(c, t);
    Gemm1Code(c, t);
    var f1 := PrefetchPart(c, w, t);
    Begin0(c, w, s, first, last, 0, k1, f1);
    var f2 := ReadTileRule(c, w, s, k1, f1, first, last, t);
    Joins(c, w, s, first, last, 0, k1, k2, f1, f2);
    Begin0(c, w, s, first, last, 0, k2, f2);
    var f3 := StagePart(c, w, t, k2, f2);
    Joins(c, w, s, first, last, 0, k2, k3, f2, f3);
    Begin0(c, w, s, first, last, 0, k3, f3);
    MidBarrierRule(c, w, s, k3, f3, first, last);
    Joins(c, w, s, first, last, 0, k3, |Seg(c, s)|, f3, last);
    Finish(c, w, s);
  }

  lemma Gemm2Code(c: Config, t: nat)
    requires t < c.tiles
    ensures var code, a := Seg(c, 2 + 2 * t), ReadV(c, t);
      && CodeAt(code, 0, a)
      && (if t + 1 < c.tiles then |code| == |a| + 3 && CodeAt(code, |a|, DRAIN) else |code| == |a|)
  {
    assert (2 + 2 * t - 2) / 2 == t && (2 + 2 * t) % 2 == 0;
    hide ReadV;
  }

  lemma VtRule(c: Config, w: nat, t: nat)
    requires ConfigOk(c) && t < c.tiles && !c.gfx950 && KnownAt(c, w, 2 + 2 * t) && CodeAt(Seg(c, 2 + 2 * t), 0, ReadV(c, t))
    ensures Upto(c, w, 2 + 2 * t, MidFacts(c, t), TileFacts(c, t + 1), 0, 1,
                 MidFacts(c, t).(consumed := TileFacts(c, t + 1).consumed))
  {
    hide Know, LocalInstr, TrackAt, Seg, FactsAt, FillsKind;
    ScoreFacts(c, t);
    FillAll(c, VtStage);
    assert Seg(c, 2 + 2 * t)[0] == ReadV(c, t)[0];
    var f := DoRead(Pipeline(c), w, Buffers(c), 2 + 2 * t, 0, MidFacts(c, t), MidFacts(c, t), TileFacts(c, t + 1), VtStage);
  }

  lemma ReadVPart(c: Config, w: nat, t: nat)
    requires ConfigOk(c) && t < c.tiles && KnownAt(c, w, 2 + 2 * t) && CodeAt(Seg(c, 2 + 2 * t), 0, ReadV(c, t))
    ensures Upto(c, w, 2 + 2 * t, MidFacts(c, t), TileFacts(c, t + 1), 0, |ReadV(c, t)|,
                 MidFacts(c, t).(consumed := TileFacts(c, t + 1).consumed))
  {
    hide Know, TrackAt, Seg, FactsAt, ReadTile, Upto, CodeAt, LocalInstr;
    ScoreFacts(c, t);
    if c.gfx950 {
      Begin(c, w, 2 + 2 * t, MidFacts(c, t), TileFacts(c, t + 1), 0, MidFacts(c, t));
      var f := ReadTileRule(c, w, 2 + 2 * t, 0, MidFacts(c, t), MidFacts(c, t), TileFacts(c, t + 1), t);
    } else {
      VtRule(c, w, t);
    }
  }

  lemma Products(c: Config, w: nat, t: nat)
    requires ConfigOk(c) && t < c.tiles && KnownAt(c, w, 2 + 2 * t)
    ensures SegOk(c, w, 2 + 2 * t)
  {
    hide Know, TrackAt, Seg, Upto, CodeAt, Checked, FactsAt, SegOk, ReadV;
    var s, first, last := 2 + 2 * t, MidFacts(c, t), TileFacts(c, t + 1);
    var f, k := first.(consumed := last.consumed), |ReadV(c, t)|;
    ScoreFacts(c, t);
    Gemm2Code(c, t);
    ReadVPart(c, w, t);
    if t + 1 < c.tiles {
      Begin0(c, w, s, first, last, 0, k, f);
      DrainRule(c, w, s, k, f, first, last);
      Joins(c, w, s, first, last, 0, k, |Seg(c, s)|, f, last);
    }
    Finish(c, w, s);
  }

  lemma SegmentKeeps(c: Config, w: nat, s: nat)
    requires ConfigOk(c) && s <= 2 * c.tiles + 1 && KnownAt(c, w, s)
    ensures SegOk(c, w, s)
  {
    hide KnownAt, SegOk;
    if s == 0 {
      FirstTile(c, w);
    } else if s == 2 * c.tiles + 1 {
      Ended(c, w);
    } else if s % 2 == 1 {
      Scores(c, w, (s - 1) / 2);
    } else {
      Products(c, w, (s - 2) / 2);
    }
  }

  lemma Ended(c: Config, w: nat)
    requires KnownAt(c, w, 2 * c.tiles + 1)
    ensures SegOk(c, w, 2 * c.tiles + 1)
  {
    hide Know, TrackAt;
  }

  lemma {:induction false} Knows(c: Config, w: nat, s: nat)
    requires ConfigOk(c) && s <= 2 * c.tiles + 1
    ensures KnownAt(c, w, s)
  {
    hide Know;
    if s == 0 {
      Start(Pipeline(c), w, Buffers(c));
    } else {
      Knows(c, w, s - 1);
      SegmentKeeps(c, w, s - 1);
    }
  }

  // -------------------------------------------------------------------- main results

  lemma {:induction false} BarsAre(c: Config, w: nat, s: nat)
    requires s <= 2 * c.tiles + 1 && c.tiles > 0
    ensures Bars(Pipeline(c), w, s) == if s <= 2 * c.tiles then s else s - 1
  {
    hide Seg;
    if s > 0 {
      BarsAre(c, w, s - 1);
      BarrierAt(c, s - 1);
    }
  }

  lemma BarrierAt(c: Config, s: nat)
    requires s <= 2 * c.tiles && c.tiles > 0
    ensures EndsInBarrier(Seg(c, s)) <==> s < 2 * c.tiles
  {
    hide Prefetch, Stage, LoadTile;
  }

  /** Scores and products of tile `t` touch its own buffer only, but for the fetch of tile t+1. */
  lemma SegLoads(c: Config, s: nat, i: Instr)
    requires 1 <= s <= 2 * c.tiles && i in Seg(c, s) && i.Load?
    ensures s % 2 == 1
    ensures var t := (s - 1) / 2;
      || i.copy.region == Region(VtStage, 0)
      || (t + 1 < c.tiles && (i.copy.region == Buf(KTile, t + 1) || i.copy.region == Buf(AuxTile, t + 1)))
  {
  }

  lemma SegReads(c: Config, s: nat, i: Instr)
    requires s <= 2 * c.tiles + 1 && i in Seg(c, s) && i.Read?
    ensures 1 <= s <= 2 * c.tiles && (i.region.kind == VtStage ==> s % 2 == 0 && !c.gfx950) && i.region.kind != VTile
    ensures i.region.kind == AuxTile ==> c.partial
  {
  }

  /** The tile read in a segment is tile (s-1)/2, whatever the kind. */
  lemma ReadTileIs(c: Config, w: nat, s: nat, kind: Kind, n: nat)
    requires s <= 2 * c.tiles + 1 && ReadHere(Pipeline(c), FactsOf(c), w, s, kind, n)
    ensures 1 <= s <= 2 * c.tiles && Buffers(c).TileOf(kind, n) == (s - 1) / 2 && kind != VTile
    ensures kind == VtStage ==> s % 2 == 0 && !c.gfx950
    ensures kind == AuxTile ==> c.partial
  {
    hide Seg;
    var i :| i in Seg(c, s) && i.Read? && i.region.kind == kind;
    SegReads(c, s, i);
    ScoreFacts(c, (s - 1) / 2);
  }

  lemma RingKeeps(c: Config, s: nat, kind: Kind)
    requires ConfigOk(c) && 1 <= s <= 2 * c.tiles && kind != VTile
    requires (kind == VtStage ==> s % 2 == 0 && !c.gfx950) && (kind == AuxTile ==> c.partial)
    ensures Recent(Buffers(c), FactsAt(c, s).issued, kind, (s - 1) / 2) && FactsAt(c, s).Free(Buffers(c), kind, (s - 1) / 2)
  {
  }

  lemma SteadyTile(c: Config, s: nat, kind: Kind)
    requires ConfigOk(c) && 1 <= s <= 2 * c.tiles && kind != VTile
    requires (kind == VtStage ==> s % 2 == 0 && !c.gfx950) && (kind == AuxTile ==> c.partial)
    ensures Steady(Buffers(c), FactsAt(c, s), Seg(c, s), kind, (s - 1) / 2)
  {
    hide Seg, FactsAt;
    var t := (s - 1) / 2;
    assert s == 1 + 2 * t || s == 2 + 2 * t;
    ScoreFacts(c, t);
    RingKeeps(c, s, kind);
    if i :| i in Seg(c, s) && i.Load? && i.copy.region == Buffers(c).Slot(kind, t) {
      SegLoads(c, s, i);
    }
  }

  /** A wave that is through leaves the last tile to the others. */
  lemma SteadyEnd(c: Config, kind: Kind)
    requires ConfigOk(c) && kind != VTile && (kind == VtStage ==> !c.gfx950) && (kind == AuxTile ==> c.partial)
    ensures Steady(Buffers(c), FactsAt(c, 2 * c.tiles + 1), Seg(c, 2 * c.tiles + 1), kind, c.tiles - 1)
  {
  }

  lemma SteadyAll(c: Config, w: nat, s: nat)
    requires ConfigOk(c) && s <= 2 * c.tiles + 1
    ensures SteadyDuring(Pipeline(c), Buffers(c), FactsOf(c), w, s)
  {
    hide Steady, Bars, Seg, ReadHere, FactsAt, Layout.TileOf;
    assert c.tiles > 0;
    var p := Pipeline(c);
    forall kind, n: nat, w': nat, s': nat | ReadHere(p, FactsOf(c), w, s, kind, n) && Together(p, w, s, w', s')
      ensures Steady(Buffers(c), FactsOf(c)(w', s'), p.code(w', s'), kind, Buffers(c).TileOf(kind, n))
    {
      ReadTileIs(c, w, s, kind, n);
      BarsAre(c, w, s);
      BarsAre(c, w', s');
      if s' == s { SteadyTile(c, s, kind); } else { SteadyEnd(c, kind); }
    }
  }

  lemma IsScheduled(c: Config)
    requires ConfigOk(c)
    ensures Scheduled(Pipeline(c), Buffers(c), FactsOf(c))
  {
    hide Know, LocalOk, SteadyDuring, Bars, FactsAt;
    var p := Pipeline(c);
    forall w, s | 0 <= w < p.waves && 0 <= s <= p.segs(w)
      ensures Know(p, w, Buffers(c), TrackAt(p, w, s, 0), FactsOf(c)(w, s))
      ensures LocalOk(p, w, Buffers(c), s, FactsOf(c)(w, s), FactsOf(c)(w, s + 1))
      ensures SteadyDuring(p, Buffers(c), FactsOf(c), w, s)
    {
      Knows(c, w, s);
      SegmentKeeps(c, w, s);
      SteadyAll(c, w, s);
    }
    forall w, w' | 0 <= w < p.waves && 0 <= w' < p.waves
      ensures p.code(w, p.segs(w)) == [] && Bars(p, w, p.segs(w)) == Bars(p, w', p.segs(w'))
    {
      BarsAre(c, w, 2 * c.tiles + 1);
      BarsAre(c, w', 2 * c.tiles + 1);
    }
  }

  /** MAIN. In every run, every wave reads the rows of tiles 0, 1, .., tiles-1 in order, each tile
      twice (for its scores and for its values) and whole, from buffer t mod 2; on gfx942 the
      transposed copies come in the same order. */
  lemma TilesInOrder(c: Config, steps: seq<Step>, w: nat, kind: Kind)
    requires ConfigOk(c) && CanRun(Pipeline(c), Init(Pipeline(c)), steps) && w < c.waves && Buffers(c).slots(kind) > 0
    ensures ReadsAll(Pipeline(c), Buffers(c), steps, w, kind, if kind == VtStage then c.tiles else 2 * c.tiles)
  {
    hide Scheduled, ReadsAll;
    IsScheduled(c);
    ReadsInOrder(Pipeline(c), Buffers(c), FactsOf(c), steps, w, kind);
  }

  /** MAIN. While a wave still has to read a buffer before its next barrier, nobody writes to it. */
  lemma NoTileOverwritten(c: Config, steps: seq<Step>, u: nat, pos: nat, r: Region, w: nat)
    requires ConfigOk(c) && CanRun(Pipeline(c), Init(Pipeline(c)), steps) && u < c.waves && w < c.waves
    requires var st := Final(Pipeline(c), Init(Pipeline(c)), steps);
      |st| == c.waves && st[u].seg <= 2 * c.tiles + 1 && pos < |Seg(c, st[u].seg)| && Seg(c, st[u].seg)[pos] == Read(r)
    ensures !InFlight(Final(Pipeline(c), Init(Pipeline(c)), steps)[w], r)
  {
    hide Scheduled, Seg;
    IsScheduled(c);
    ScheduledIsValid(Pipeline(c), Buffers(c), FactsOf(c));
    NoOverwriteWhileReadable(Pipeline(c), steps, u, pos, r, w);
  }

  // ------------------------------------------------------------ the output bounce buffer

  /** The KV buffer the last tile's output is bounced through. */
  function BounceBuffer(c: Config): nat
    requires c.tiles > 0
  {
    if !c.gfx950 then 0 else if (c.tiles - 1) % 2 == 1 then 0 else 1
  }

  /** MAIN. When a wave has passed the last mid barrier and may store output rows to the bounce
      buffer, no wave still has to read that buffer and no copy to it is in flight. */
  lemma OutputBounceIsSafe(c: Config, w: nat, s: nat, w': nat, s': nat, kind: Kind)
    requires ConfigOk(c) && (kind == KTile || kind == AuxTile)
    requires 2 * c.tiles <= s <= 2 * c.tiles + 1 && Together(Pipeline(c), w, s, w', s')
    ensures s' >= 2 * c.tiles && Read(Region(kind, BounceBuffer(c))) !in Seg(c, s')
    ensures !TrackAt(Pipeline(c), w', s', 0).Pending(Region(kind, BounceBuffer(c)))
  {
    hide Know, TrackAt, Bars;
    BarsAre(c, w, s);
    BarsAre(c, w', s');
    Knows(c, w', s');
    NothingInFlight(c, w', s', Region(kind, BounceBuffer(c)));
  }

  lemma NothingInFlight(c: Config, w: nat, s: nat, r: Region)
    requires KnownAt(c, w, s) && c.tiles > 0 && 2 * c.tiles <= s <= 2 * c.tiles + 1
    ensures !TrackAt(Pipeline(c), w, s, 0).Pending(r)
  {
    hide TrackAt, RingOk, LogOk;
    if s == 2 * c.tiles { ScoreFacts(c, c.tiles - 1); }
  }
}
