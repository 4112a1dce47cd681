/** Bookkeeping for pipelines that keep tiles in rings of LDS slots: tile `x` of a kind goes
    to slot `(shift + x) % slots(kind)`, tiles are issued in order, and each read takes the next tile.
    `Know` is what a wave knows between two instructions; one rule per instruction says how
    it changes, so that a segment is checked by applying the rules along its code. */
module Rings {
  import opened Arith
  import opened Machine

  /** Tile 0 of the pipeline is tile `base` of the sequence. */
  datatype Layout = Layout(base: int, shift: nat, slots: Kind -> nat, twice: Kind -> bool) {
    function Slot(kind: Kind, x: nat): (r: Region)
      ensures r.kind == kind
    {
      Region(kind, if slots(kind) == 0 then 0 else (shift + x) % slots(kind))
    }

    /** The tile that the n-th read of a kind gets: tiles of some kinds are read twice. */
    function TileOf(kind: Kind, n: nat): nat {
      if twice(kind) then n / 2 else n
    }

    function CopyOf(kind: Kind, x: nat): Copy {
      Copy(Slot(kind, x), base + x)
    }
  }

  datatype Counts = Counts(k: nat, v: nat, aux: nat, stage: nat) {
    function Of(kind: Kind): nat {
      match kind
      case KTile => k
      case VTile => v
      case AuxTile => aux
      case VtStage => stage
    }
    function Bump(kind: Kind): Counts {
      match kind
      case KTile => this.(k := k + 1)
      case VTile => this.(v := v + 1)
      case AuxTile => this.(aux := aux + 1)
      case VtStage => this.(stage := stage + 1)
    }
  }

  /** The load of tile `x` of a kind. */
  datatype Tag = Tag(kind: Kind, x: nat)

  /** The copies that those loads put into the FIFO of wave `w`. */
  function Live(p: Prog, w: nat, l: Layout, tags: seq<Tag>): seq<Copy> {
    if tags == [] then []
    else
      var k := |tags| - 1;
      var c := l.CopyOf(tags[k].kind, tags[k].x);
      Live(p, w, l, tags[..k]) + if p.lines(w, c.region) > 0 then [c] else []
  }

  function TagLines(p: Prog, w: nat, l: Layout, tags: seq<Tag>): nat {
    if tags == [] then 0
    else
      var k := |tags| - 1;
      TagLines(p, w, l, tags[..k]) + p.lines(w, l.Slot(tags[k].kind, tags[k].x))
  }

  /** The reads of one kind, in order. */
  function Reads(log: seq<Obs>, kind: Kind): seq<Obs> {
    if log == [] then []
    else
      var k := |log| - 1;
      Reads(log[..k], kind) + if log[k].region.kind == kind then [log[k]] else []
  }

  /** Tiles base, base+1, .. in order, each seen whole (and twice if its kind is). */
  function InOrder(l: Layout, kind: Kind, count: nat): seq<Obs> {
    seq(count, n requires 0 <= n < count => Obs(l.Slot(kind, l.TileOf(kind, n)), {l.base + l.TileOf(kind, n)}))
  }

  predicate Holds(l: Layout, mem: map<Region, int>, kind: Kind, x: nat)
    requires l.slots(kind) > 0
  {
    l.Slot(kind, x) in mem && mem[l.Slot(kind, x)] == l.base + x
  }

  /** Tile `x` is among the last `slots` tiles issued: the ones the ring holds or will hold. */
  predicate Recent(l: Layout, issued: Counts, kind: Kind, x: nat) {
    l.slots(kind) > 0 && issued.Of(kind) - l.slots(kind) <= x < issued.Of(kind)
  }

  ghost predicate RingOk(l: Layout, mem: map<Region, int>, issued: Counts) {
    forall kind, x: nat :: Recent(l, issued, kind, x) ==> Holds(l, mem, kind, x)
  }

  ghost predicate LogOk(l: Layout, log: seq<Obs>, consumed: Counts) {
    forall kind :: l.slots(kind) > 0 ==> Reads(log, kind) == InOrder(l, kind, consumed.Of(kind))
  }

  /** `vm` and `lgkm` bound what may still be in flight, oldest first. */
  datatype Facts = Facts(issued: Counts, consumed: Counts, vm: seq<Tag>, lgkm: seq<Tag>) {
    function Q(q: Queue): seq<Tag> {
      if q == Vm then vm else lgkm
    }
    function SetQ(q: Queue, tags: seq<Tag>): Facts {
      if q == Vm then this.(vm := tags) else this.(lgkm := tags)
    }
    /** No load in flight can be filling the slot of tile `x`. */
    predicate Free(l: Layout, kind: Kind, x: nat) {
      (forall t :: t in vm ==> Apart(l, t, kind, x)) && (forall t :: t in lgkm ==> Apart(l, t, kind, x))
    }
  }

  /** Closer than a whole ring, but not the same tile: another slot. */
  predicate Apart(l: Layout, t: Tag, kind: Kind, x: nat) {
    t.kind == kind ==> t.x != x && x - l.slots(kind) < t.x < x + l.slots(kind)
  }

  ghost predicate Know(p: Prog, w: nat, l: Layout, t: Track, f: Facts) {
    && IsSuffix(t.vm, Live(p, w, l, f.vm))
    && IsSuffix(t.lgkm, Live(p, w, l, f.lgkm))
    && RingOk(l, t.mem, f.issued)
    && LogOk(l, t.log, f.consumed)
  }

  const NONE: Facts := Facts(Counts(0, 0, 0, 0), Counts(0, 0, 0, 0), [], [])

  // ---------------------------------------------------------------- sequences

  lemma {:induction false} LiveConcat(p: Prog, w: nat, l: Layout, a: seq<Tag>, b: seq<Tag>)
    ensures Live(p, w, l, a + b) == Live(p, w, l, a) + Live(p, w, l, b)
    ensures TagLines(p, w, l, a + b) == TagLines(p, w, l, a) + TagLines(p, w, l, b)
    decreases |b|
  {
    if b == [] {
      assert a + b == a;
    } else {
      var k := |b| - 1;
      LiveConcat(p, w, l, a, b[..k]);
      assert (a + b)[..|a| + k] == a + b[..k];
    }
  }

  lemma TagLinesAppend(p: Prog, w: nat, l: Layout, a: seq<Tag>, t: Tag)
    ensures TagLines(p, w, l, a + [t]) == TagLines(p, w, l, a) + p.lines(w, l.Slot(t.kind, t.x))
  {
    assert (a + [t])[..|a|] == a;
  }

  lemma {:induction false} LinesConcat(p: Prog, w: nat, a: seq<Copy>, b: seq<Copy>)
    ensures Lines(p, w, a + b) == Lines(p, w, a) + Lines(p, w, b)
  {
    if a == [] {
      assert a + b == b;
    } else {
      assert (a + b)[1..] == a[1..] + b;
      LinesConcat(p, w, a[1..], b);
    }
  }

  lemma {:induction false} LinesLive(p: Prog, w: nat, l: Layout, tags: seq<Tag>)
    ensures Lines(p, w, Live(p, w, l, tags)) == TagLines(p, w, l, tags)
    decreases |tags|
  {
    if tags != [] {
      var k := |tags| - 1;
      var c := l.CopyOf(tags[k].kind, tags[k].x);
      LinesLive(p, w, l, tags[..k]);
      LinesConcat(p, w, Live(p, w, l, tags[..k]), if p.lines(w, c.region) > 0 then [c] else []);
    }
  }

  lemma {:induction false} LiveFree(p: Prog, w: nat, l: Layout, tags: seq<Tag>, kind: Kind, x: nat)
    requires l.slots(kind) > 0 && forall t :: t in tags ==> Apart(l, t, kind, x)
    ensures forall c :: c in Live(p, w, l, tags) ==> c.region != l.Slot(kind, x)
    decreases |tags|
  {
    if tags != [] {
      var k := |tags| - 1;
      assert tags[k] in tags && forall t :: t in tags[..k] ==> t in tags;
      LiveFree(p, w, l, tags[..k], kind, x);
      SlotsApart(l, tags[k], kind, x);
    }
  }

  lemma SlotsApart(l: Layout, t: Tag, kind: Kind, x: nat)
    requires l.slots(kind) > 0 && Apart(l, t, kind, x)
    ensures l.Slot(t.kind, t.x) != l.Slot(kind, x)
  {
    if t.kind == kind && t.x < x {
      ModDistinct(l.shift + t.x, l.shift + x, l.slots(kind));
    } else if t.kind == kind {
      ModDistinct(l.shift + x, l.shift + t.x, l.slots(kind));
    }
  }

  lemma SuffixesNest<T>(a: seq<T>, b: seq<T>, all: seq<T>)
    requires IsSuffix(a, all) && IsSuffix(b, all) && |a| <= |b|
    ensures IsSuffix(a, b)
  {
    var k := |all| - |b|;
    assert forall i :: 0 <= i < |a| ==> a[i] == all[|all| - |a| + i] && b[|b| - |a| + i] == all[k + (|b| - |a| + i)];
  }

  lemma SuffixTrans<T>(a: seq<T>, b: seq<T>, c: seq<T>)
    requires IsSuffix(a, b) && IsSuffix(b, c)
    ensures IsSuffix(a, c)
  {
    assert forall i :: 0 <= i < |a| ==> a[i] == b[|b| - |a| + i] && b[|b| - |a| + i] == c[|c| - |b| + (|b| - |a| + i)];
  }

  /** A wait for `n` lines leaves only copies from a tail that holds at least `n` lines. */
  lemma {:induction false} TrimWithin(p: Prog, w: nat, cs: seq<Copy>, tail: seq<Copy>, n: nat)
    requires IsSuffix(tail, cs) || IsSuffix(cs, tail)
    requires Lines(p, w, tail) >= n
    ensures IsSuffix(Trim(p, w, cs, n), tail)
    decreases |cs|
  {
    if |cs| <= |tail| {
      TrimIsSuffix(p, w, cs, n);
      SuffixTrans(Trim(p, w, cs, n), cs, tail);
    } else {
      assert IsSuffix(tail, cs[1..]);
      LinesSuffix(p, w, tail, cs[1..]);
      TrimWithin(p, w, cs[1..], tail, n);
    }
  }

  lemma PushLive(p: Prog, w: nat, l: Layout, cs: seq<Copy>, all: seq<Tag>, t: Tag)
    requires IsSuffix(cs, Live(p, w, l, all))
    ensures var c := l.CopyOf(t.kind, t.x);
      IsSuffix(if p.lines(w, c.region) > 0 then cs + [c] else cs, Live(p, w, l, all + [t]))
  {
    var c := l.CopyOf(t.kind, t.x);
    assert (all + [t])[..|all|] == all;
    var a := Live(p, w, l, all);
    assert cs + [c] == (a + [c])[|a| - |cs|..];
  }

  lemma ReadsAppend(log: seq<Obs>, o: Obs, kind: Kind)
    ensures Reads(log + [o], kind) == Reads(log, kind) + if o.region.kind == kind then [o] else []
  {
    assert (log + [o])[..|log|] == log;
  }

  // -------------------------------------------------------------------- rules

  lemma FreeNotPending(p: Prog, w: nat, l: Layout, t: Track, f: Facts, kind: Kind, x: nat)
    requires Know(p, w, l, t, f) && l.slots(kind) > 0 && f.Free(l, kind, x)
    ensures !t.Pending(l.Slot(kind, x))
  {
    LiveFree(p, w, l, f.vm, kind, x);
    LiveFree(p, w, l, f.lgkm, kind, x);
  }

  function Loaded(f: Facts, q: Queue, kind: Kind): Facts {
    f.(issued := f.issued.Bump(kind)).SetQ(q, f.Q(q) + [Tag(kind, f.issued.Of(kind))])
  }

  /** Issuing the next tile of a kind into its slot, which no copy may still be filling. */
  lemma LoadRule(p: Prog, w: nat, l: Layout, t: Track, f: Facts, q: Queue, kind: Kind)
    requires Know(p, w, l, t, f) && l.slots(kind) > 0 && f.Free(l, kind, f.issued.Of(kind))
    ensures var c := l.CopyOf(kind, f.issued.Of(kind));
      !t.Pending(c.region) && Know(p, w, l, After(p, w, t, Load(q, c)), Loaded(f, q, kind))
  {
    var x := f.issued.Of(kind);
    FreeNotPending(p, w, l, t, f, kind, x);
    PushLive(p, w, l, t.Q(q), f.Q(q), Tag(kind, x));
    RingAdvances(l, t.mem, f.issued, kind);
  }

  lemma RingAdvances(l: Layout, mem: map<Region, int>, issued: Counts, kind: Kind)
    requires RingOk(l, mem, issued) && l.slots(kind) > 0
    ensures var c := l.CopyOf(kind, issued.Of(kind)); RingOk(l, mem[c.region := c.tile], issued.Bump(kind))
  {
    var x := issued.Of(kind);
    var c := l.CopyOf(kind, x);
    var issued' := issued.Bump(kind);
    forall k, y: nat | Recent(l, issued', k, y)
      ensures Holds(l, mem[c.region := c.tile], k, y)
    {
      if k == kind && y < x {
        ModDistinct(l.shift + y, l.shift + x, l.slots(k));
        assert Recent(l, issued, k, y);
        assert Holds(l, mem, k, y);
      } else if k != kind {
        assert Recent(l, issued, k, y);
        assert Holds(l, mem, k, y);
      }
    }
  }

  lemma TrimLive(p: Prog, w: nat, l: Layout, cs: seq<Copy>, gone: seq<Tag>, rest: seq<Tag>, n: nat)
    requires IsSuffix(cs, Live(p, w, l, gone + rest)) && (gone == [] || TagLines(p, w, l, rest) >= n)
    ensures IsSuffix(Trim(p, w, cs, n), Live(p, w, l, rest))
  {
    var tail, all := Live(p, w, l, rest), Live(p, w, l, gone + rest);
    if gone == [] {
      assert gone + rest == rest;
      TrimIsSuffix(p, w, cs, n);
      SuffixTrans(Trim(p, w, cs, n), cs, all);
      return;
    }
    LiveConcat(p, w, l, gone, rest);
    LinesLive(p, w, l, rest);
    assert IsSuffix(tail, all);
    if |cs| <= |tail| {
      SuffixesNest(cs, tail, all);
    } else {
      SuffixesNest(tail, cs, all);
    }
    TrimWithin(p, w, cs, tail, n);
  }

  /** A wait for `n` lines, when the loads after `gone` hold at least `n` lines. */
  lemma WaitRule(p: Prog, w: nat, l: Layout, t: Track, f: Facts, q: Queue, n: nat, gone: seq<Tag>, rest: seq<Tag>)
    requires Know(p, w, l, t, f) && f.Q(q) == gone + rest && (gone == [] || TagLines(p, w, l, rest) >= n)
    ensures Know(p, w, l, After(p, w, t, Wait(q, n)), f.SetQ(q, rest))
  {
    TrimLive(p, w, l, t.Q(q), gone, rest, n);
  }

  /** The tile a read of slot of tile `x` gets, while tile `x` is among the last issued. */
  lemma HeldTile(p: Prog, w: nat, l: Layout, t: Track, f: Facts, kind: Kind, x: nat)
    requires Know(p, w, l, t, f) && l.slots(kind) > 0
    requires Recent(l, f.issued, kind, x)
    ensures Holds(l, t.mem, kind, x) && Latest(t, l.CopyOf(kind, x).region) == l.base + x
  {
  }

  lemma LogAdvances(l: Layout, log: seq<Obs>, consumed: Counts, kind: Kind)
    requires LogOk(l, log, consumed) && l.slots(kind) > 0
    ensures var x := l.TileOf(kind, consumed.Of(kind));
      LogOk(l, log + [Obs(l.CopyOf(kind, x).region, {l.base + x})], consumed.Bump(kind))
  {
    hide Reads, Layout.Slot;
    var x := l.TileOf(kind, consumed.Of(kind));
    var o := Obs(l.CopyOf(kind, x).region, {l.base + x});
    forall k | l.slots(k) > 0 ensures Reads(log + [o], k) == InOrder(l, k, consumed.Bump(kind).Of(k)) {
      ReadsAppend(log, o, k);
    }
  }

  /** Reading the next tile of a kind, which is among the last issued. */
  lemma ReadRule(p: Prog, w: nat, l: Layout, t: Track, f: Facts, i: Instr, kind: Kind)
    requires Know(p, w, l, t, f) && l.slots(kind) > 0 && (i.Read? || i.ReadOwn?)
    requires var x := l.TileOf(kind, f.consumed.Of(kind)); Recent(l, f.issued, kind, x) && i.region == l.Slot(kind, x)
    ensures i.region in t.mem && Latest(t, i.region) == l.base + l.TileOf(kind, f.consumed.Of(kind))
    ensures Know(p, w, l, After(p, w, t, i), f.(consumed := f.consumed.Bump(kind)))
  {
    hide Live, Reads, InOrder, Layout.Slot, Layout.TileOf;
    HeldTile(p, w, l, t, f, kind, l.TileOf(kind, f.consumed.Of(kind)));
    LogAdvances(l, t.log, f.consumed, kind);
  }

  lemma Start(p: Prog, w: nat, l: Layout)
    ensures Know(p, w, l, NOTHING, NONE)
  {
  }

  /** A region that holds tile `x`, that nothing may be filling and that segment `s` does not refill. */
  lemma QuietRule(p: Prog, w: nat, l: Layout, s: nat, f: Facts, kind: Kind, x: nat)
    requires Know(p, w, l, TrackAt(p, w, s, 0), f) && l.slots(kind) > 0
    requires Recent(l, f.issued, kind, x)
    requires f.Free(l, kind, x) && !Loads(p.code(w, s), l.CopyOf(kind, x).region)
    ensures Quiet(p, w, s, l.CopyOf(kind, x).region, l.base + x)
  {
    HeldTile(p, w, l, TrackAt(p, w, s, 0), f, kind, x);
    FreeNotPending(p, w, l, TrackAt(p, w, s, 0), f, kind, x);
  }

  // ------------------------------------------------- from facts to a valid program

  /** A read in a segment between facts `f` and `f'` gets one of the tiles consumed there. */
  ghost predicate ReadOk(l: Layout, t: Track, f: Facts, f': Facts, r: Region) {
    exists n: nat :: Gets(l, t, f, f', r, n)
  }

  /** It is the n-th read of its kind. */
  predicate Gets(l: Layout, t: Track, f: Facts, f': Facts, r: Region, n: nat) {
    var x := l.TileOf(r.kind, n);
    && l.slots(r.kind) > 0 && f.consumed.Of(r.kind) <= n < f'.consumed.Of(r.kind)
    && r == l.Slot(r.kind, x) && Latest(t, r) == l.base + x
  }

  /** Every slot of a kind is filled by some wave. */
  ghost predicate FillsKind(p: Prog, kind: Kind) {
    forall b: nat :: Fills(p, Region(kind, b))
  }

  /** What instruction `pos` needs from its own wave. */
  ghost predicate LocalInstr(p: Prog, w: nat, l: Layout, s: nat, pos: nat, f: Facts, f': Facts)
    requires pos < |p.code(w, s)|
  {
    var t := TrackAt(p, w, s, pos);
    match p.code(w, s)[pos]
    case Barrier => pos == |p.code(w, s)| - 1
    case Load(_, c) => !t.Pending(c.region)
    case Wait(_, _) => true
    case ReadOwn(r) => r in t.mem && !t.Pending(r) && p.lines(w, r) > 0
    case Read(r) => Fills(p, r) && ReadOk(l, t, f, f', r)
  }

  ghost predicate Checked(p: Prog, w: nat, l: Layout, s: nat, first: Facts, last: Facts, from: nat, to: nat)
    requires to <= |p.code(w, s)|
  {
    forall pos :: from <= pos < to ==> LocalInstr(p, w, l, s, pos, first, last)
  }

  ghost predicate LocalOk(p: Prog, w: nat, l: Layout, s: nat, f: Facts, f': Facts) {
    forall pos :: 0 <= pos < |p.code(w, s)| ==> LocalInstr(p, w, l, s, pos, f, f')
  }

  lemma CheckedJoins(p: Prog, w: nat, l: Layout, s: nat, first: Facts, last: Facts, mid: nat)
    requires mid <= |p.code(w, s)|
    requires Checked(p, w, l, s, first, last, 0, mid) && Checked(p, w, l, s, first, last, mid, |p.code(w, s)|)
    ensures LocalOk(p, w, l, s, first, last)
  {
  }

  /** Facts `f` at the start of a segment with code `code` keep tile `x` readable in it. */
  predicate Steady(l: Layout, f: Facts, code: seq<Instr>, kind: Kind, x: nat) {
    && Recent(l, f.issued, kind, x) && f.Free(l, kind, x)
    && !Loads(code, l.CopyOf(kind, x).region)
  }

  // The rules again, for instruction `pos` of segment `s`: each returns the facts after it.

  lemma DoLoad(p: Prog, w: nat, l: Layout, s: nat, pos: nat, f: Facts, first: Facts, last: Facts, q: Queue, kind: Kind)
      returns (f': Facts)
    requires pos < |p.code(w, s)| && Know(p, w, l, TrackAt(p, w, s, pos), f) && l.slots(kind) > 0
    requires p.code(w, s)[pos] == Load(q, l.CopyOf(kind, f.issued.Of(kind)))
    requires f.Free(l, kind, f.issued.Of(kind))
    ensures f' == Loaded(f, q, kind) && Know(p, w, l, TrackAt(p, w, s, pos + 1), f')
    ensures LocalInstr(p, w, l, s, pos, first, last)
  {
    f' := Loaded(f, q, kind);
    LoadRule(p, w, l, TrackAt(p, w, s, pos), f, q, kind);
  }

  /** Two consecutive tiles of a kind. */
  lemma DoLoadTwo(p: Prog, w: nat, l: Layout, s: nat, pos: nat, f: Facts, first: Facts, last: Facts, q: Queue, kind: Kind)
      returns (f': Facts)
    requires pos + 1 < |p.code(w, s)| && Know(p, w, l, TrackAt(p, w, s, pos), f) && l.slots(kind) > 1
    requires var x := f.issued.Of(kind);
      && p.code(w, s)[pos] == Load(q, l.CopyOf(kind, x)) && p.code(w, s)[pos + 1] == Load(q, l.CopyOf(kind, x + 1))
      && f.Free(l, kind, x) && f.Free(l, kind, x + 1)
    ensures var x := f.issued.Of(kind);
      f' == f.(issued := f.issued.Bump(kind).Bump(kind)).SetQ(q, f.Q(q) + [Tag(kind, x), Tag(kind, x + 1)])
    ensures Know(p, w, l, TrackAt(p, w, s, pos + 2), f')
    ensures Checked(p, w, l, s, first, last, pos, pos + 2)
  {
    hide Know, LocalInstr, TrackAt;
    var x := f.issued.Of(kind);
    f' := DoLoad(p, w, l, s, pos, f, first, last, q, kind);
    assert f'.Free(l, kind, x + 1);
    f' := DoLoad(p, w, l, s, pos + 1, f', first, last, q, kind);
    assert f.Q(q) + [Tag(kind, x)] + [Tag(kind, x + 1)] == f.Q(q) + [Tag(kind, x), Tag(kind, x + 1)];
  }

  /** Two consecutive tiles of a kind, read where they are among the last issued. */
  lemma DoReadTwo(p: Prog, w: nat, l: Layout, s: nat, pos: nat, f: Facts, first: Facts, last: Facts, kind: Kind)
      returns (f': Facts)
    requires pos + 1 < |p.code(w, s)| && Know(p, w, l, TrackAt(p, w, s, pos), f)
    requires Recent(l, f.issued, kind, f.consumed.Of(kind)) && Recent(l, f.issued, kind, f.consumed.Of(kind) + 1)
    requires var x := f.consumed.Of(kind);
      && p.code(w, s)[pos] == Read(l.Slot(kind, x)) && p.code(w, s)[pos + 1] == Read(l.Slot(kind, x + 1))
      && FillsKind(p, kind) && !l.twice(kind)
      && first.consumed.Of(kind) <= x && x + 1 < last.consumed.Of(kind)
    ensures f' == f.(consumed := f.consumed.Bump(kind).Bump(kind))
    ensures Know(p, w, l, TrackAt(p, w, s, pos + 2), f')
    ensures Checked(p, w, l, s, first, last, pos, pos + 2)
  {
    hide Know, LocalInstr, TrackAt, FillsKind;
    f' := DoRead(p, w, l, s, pos, f, first, last, kind);
    f' := DoRead(p, w, l, s, pos + 1, f', first, last, kind);
  }

  /** The full drain that ends a segment: both queues empty, then the barrier. */
  lemma DoDrain(p: Prog, w: nat, l: Layout, s: nat, pos: nat, f: Facts, first: Facts, last: Facts) returns (f': Facts)
    requires |p.code(w, s)| == pos + 3 && Know(p, w, l, TrackAt(p, w, s, pos), f)
    requires p.code(w, s)[pos] == Wait(Vm, 0) && p.code(w, s)[pos + 1] == Wait(Lgkm, 0) && p.code(w, s)[pos + 2] == Barrier
    ensures f' == Facts(f.issued, f.consumed, [], [])
    ensures Know(p, w, l, TrackAt(p, w, s, pos + 3), f') && Checked(p, w, l, s, first, last, pos, pos + 3)
  {
    hide Know, LocalInstr, TrackAt;
    assert f.vm == f.vm + [] && f.lgkm == f.lgkm + [];
    f' := DoWait(p, w, l, s, pos, f, first, last, f.vm, []);
    f' := DoWait(p, w, l, s, pos + 1, f', first, last, f.lgkm, []);
    DoBarrier(p, w, l, s, pos + 2, f', first, last);
  }

  lemma DoWait(p: Prog, w: nat, l: Layout, s: nat, pos: nat, f: Facts, first: Facts, last: Facts, gone: seq<Tag>, rest: seq<Tag>)
      returns (f': Facts)
    requires pos < |p.code(w, s)| && Know(p, w, l, TrackAt(p, w, s, pos), f)
    requires p.code(w, s)[pos].Wait?
    requires var i := p.code(w, s)[pos]; f.Q(i.queue) == gone + rest && (gone == [] || TagLines(p, w, l, rest) >= i.n)
    ensures f' == f.SetQ(p.code(w, s)[pos].queue, rest)
    ensures Know(p, w, l, TrackAt(p, w, s, pos + 1), f') && LocalInstr(p, w, l, s, pos, first, last)
  {
    var i := p.code(w, s)[pos];
    f' := f.SetQ(i.queue, rest);
    WaitRule(p, w, l, TrackAt(p, w, s, pos), f, i.queue, i.n, gone, rest);
  }

  lemma DoRead(p: Prog, w: nat, l: Layout, s: nat, pos: nat, f: Facts, first: Facts, last: Facts, kind: Kind)
      returns (f': Facts)
    requires pos < |p.code(w, s)| && Know(p, w, l, TrackAt(p, w, s, pos), f)
    requires Recent(l, f.issued, kind, l.TileOf(kind, f.consumed.Of(kind)))
    requires var n := f.consumed.Of(kind); var x := l.TileOf(kind, n); var r := l.Slot(kind, x);
      || (p.code(w, s)[pos] == Read(r) && FillsKind(p, kind) && first.consumed.Of(kind) <= n < last.consumed.Of(kind))
      || (p.code(w, s)[pos] == ReadOwn(r) && p.lines(w, r) > 0 && f.Free(l, kind, x))
    ensures f' == f.(consumed := f.consumed.Bump(kind))
    ensures Know(p, w, l, TrackAt(p, w, s, pos + 1), f') && LocalInstr(p, w, l, s, pos, first, last)
  {
    hide Layout.Slot, Layout.TileOf, Live, Reads, InOrder, Fills;
    var t := TrackAt(p, w, s, pos);
    var i := p.code(w, s)[pos];
    f' := f.(consumed := f.consumed.Bump(kind));
    ReadRule(p, w, l, t, f, i, kind);
    if i.Read? {
      assert Fills(p, Region(kind, i.region.buf));
      assert Gets(l, t, first, last, i.region, f.consumed.Of(kind));
    } else {
      FreeNotPending(p, w, l, t, f, kind, l.TileOf(kind, f.consumed.Of(kind)));
    }
  }

  lemma DoBarrier(p: Prog, w: nat, l: Layout, s: nat, pos: nat, f: Facts, first: Facts, last: Facts)
    requires pos < |p.code(w, s)| && Know(p, w, l, TrackAt(p, w, s, pos), f)
    requires p.code(w, s)[pos].Barrier? && pos == |p.code(w, s)| - 1
    ensures Know(p, w, l, TrackAt(p, w, s, pos + 1), f) && LocalInstr(p, w, l, s, pos, first, last)
  {
  }

  /** From instruction `k` on, segment `s` fetches a tile, reads one, and waits for `n` lines. */
  predicate IsFetchAndRead(p: Prog, w: nat, l: Layout, s: nat, k: nat, f: Facts, fetched: Kind, read: Kind, n: nat)
    requires l.slots(fetched) > 0 && l.slots(read) > 0
  {
    && |p.code(w, s)| >= k + 3
    && p.code(w, s)[k] == Load(Vm, l.CopyOf(fetched, f.issued.Of(fetched)))
    && p.code(w, s)[k + 1] == Read(l.CopyOf(read, f.consumed.Of(read)).region)
    && p.code(w, s)[k + 2] == Wait(Vm, n)
  }

  /** After such a group only `rest` and the new copy can be in flight. */
  lemma FetchAndRead(p: Prog, w: nat, l: Layout, s: nat, k: nat, f: Facts, first: Facts, last: Facts,
                     fetched: Kind, read: Kind, n: nat, gone: seq<Tag>, rest: seq<Tag>) returns (f': Facts)
    requires l.slots(fetched) > 0 && l.slots(read) > 0 && fetched != read
    requires IsFetchAndRead(p, w, l, s, k, f, fetched, read, n)
    requires Know(p, w, l, TrackAt(p, w, s, k), f) && f.vm == gone + rest
    requires f.Free(l, fetched, f.issued.Of(fetched))
    requires Recent(l, f.issued, read, f.consumed.Of(read)) && FillsKind(p, read) && !l.twice(read)
    requires first.consumed.Of(read) <= f.consumed.Of(read) < last.consumed.Of(read)
    requires TagLines(p, w, l, rest + [Tag(fetched, f.issued.Of(fetched))]) >= n
    ensures f' == Facts(f.issued.Bump(fetched), f.consumed.Bump(read), rest + [Tag(fetched, f.issued.Of(fetched))], f.lgkm)
    ensures Know(p, w, l, TrackAt(p, w, s, k + 3), f')
    ensures forall pos :: k <= pos < k + 3 ==> LocalInstr(p, w, l, s, pos, first, last)
  {
    hide Know, LocalInstr, TrackAt, TagLines, FillsKind;
    var tag := Tag(fetched, f.issued.Of(fetched));
    f' := DoLoad(p, w, l, s, k, f, first, last, Vm, fetched);
    f' := DoRead(p, w, l, s, k + 1, f', first, last, read);
    assert f'.vm == gone + (rest + [tag]);
    f' := DoWait(p, w, l, s, k + 2, f', first, last, gone, rest + [tag]);
  }

  /** The n-th read of a kind is in segment `s` of wave `w`. */
  predicate ReadHere(p: Prog, facts: (nat, nat) -> Facts, w: nat, s: nat, kind: Kind, n: nat) {
    && (exists i :: i in p.code(w, s) && i.Read? && i.region.kind == kind)
    && facts(w, s).consumed.Of(kind) <= n < facts(w, s + 1).consumed.Of(kind)
  }

  /** Wave `w'` can be in segment `s'` while wave `w` is in segment `s`. */
  predicate Together(p: Prog, w: nat, s: nat, w': nat, s': nat) {
    w' < p.waves && s' <= p.segs(w') && Bars(p, w', s') == Bars(p, w, s)
  }

  /** Whoever may run while wave `w` is in segment `s` leaves the tiles read there alone. */
  ghost predicate SteadyDuring(p: Prog, l: Layout, facts: (nat, nat) -> Facts, w: nat, s: nat) {
    forall kind, n: nat, w': nat, s': nat :: ReadHere(p, facts, w, s, kind, n) && Together(p, w, s, w', s')
      ==> Steady(l, facts(w', s'), p.code(w', s'), kind, l.TileOf(kind, n))
  }

  ghost predicate Scheduled(p: Prog, l: Layout, facts: (nat, nat) -> Facts) {
    && p.waves > 0
    && (forall w, s :: 0 <= w < p.waves && 0 <= s <= p.segs(w) ==> Know(p, w, l, TrackAt(p, w, s, 0), facts(w, s)))
    && (forall w, s :: 0 <= w < p.waves && 0 <= s <= p.segs(w) ==> LocalOk(p, w, l, s, facts(w, s), facts(w, s + 1)))
    && (forall w, s :: 0 <= w < p.waves && 0 <= s <= p.segs(w) ==> SteadyDuring(p, l, facts, w, s))
    && (forall w :: 0 <= w < p.waves ==> p.code(w, p.segs(w)) == [])
    && (forall w, w' :: 0 <= w < p.waves && 0 <= w' < p.waves ==> Bars(p, w, p.segs(w)) == Bars(p, w', p.segs(w')))
  }

  lemma SteadyIsQuiet(p: Prog, l: Layout, facts: (nat, nat) -> Facts, w: nat, s: nat, kind: Kind, n: nat, w': nat, s': nat)
    requires Scheduled(p, l, facts) && w < p.waves && s <= p.segs(w)
    requires ReadHere(p, facts, w, s, kind, n) && Together(p, w, s, w', s') && l.slots(kind) > 0
    ensures var x := l.TileOf(kind, n); Quiet(p, w', s', l.Slot(kind, x), l.base + x)
  {
    var x := l.TileOf(kind, n);
    assert SteadyDuring(p, l, facts, w, s);
    assert Steady(l, facts(w', s'), p.code(w', s'), kind, x);
    QuietRule(p, w', l, s', facts(w', s'), kind, x);
  }

  lemma ScheduledRead(p: Prog, l: Layout, facts: (nat, nat) -> Facts, w: nat, s: nat, pos: nat)
    requires Scheduled(p, l, facts) && w < p.waves && s <= p.segs(w) && pos < |p.code(w, s)|
    requires p.code(w, s)[pos].Read?
    ensures InstrValid(p, w, s, pos)
  {
    var t := TrackAt(p, w, s, pos);
    var i := p.code(w, s)[pos];
    var r := i.region;
    assert LocalInstr(p, w, l, s, pos, facts(w, s), facts(w, s + 1)) by {
      assert LocalOk(p, w, l, s, facts(w, s), facts(w, s + 1));
    }
    var n: nat :| Gets(l, t, facts(w, s), facts(w, s + 1), r, n);
    assert i in p.code(w, s);
    assert ReadHere(p, facts, w, s, r.kind, n);
    forall w', s' | 0 <= w' < p.waves && 0 <= s' <= p.segs(w') && Bars(p, w', s') == Bars(p, w, s)
      ensures Quiet(p, w', s', r, Latest(t, r))
    {
      SteadyIsQuiet(p, l, facts, w, s, r.kind, n, w', s');
    }
  }

  lemma ScheduledIsValid(p: Prog, l: Layout, facts: (nat, nat) -> Facts)
    requires Scheduled(p, l, facts)
    ensures Valid(p)
  {
    forall w, s | 0 <= w < p.waves && 0 <= s <= p.segs(w) ensures SegValid(p, w, s) {
      forall pos | 0 <= pos < |p.code(w, s)| ensures InstrValid(p, w, s, pos) {
        assert LocalOk(p, w, l, s, facts(w, s), facts(w, s + 1));
        assert LocalInstr(p, w, l, s, pos, facts(w, s), facts(w, s + 1));
        if p.code(w, s)[pos].Read? {
          ScheduledRead(p, l, facts, w, s, pos);
        }
      }
    }
  }

  // ------------------------------------------------------------ what every run reads

  lemma {:induction false} ReadsPrefix(a: seq<Obs>, b: seq<Obs>, kind: Kind)
    requires a <= b
    ensures Reads(a, kind) <= Reads(b, kind)
    decreases |b|
  {
    if |a| < |b| {
      ReadsPrefix(a, b[..|b| - 1], kind);
    } else {
      assert a == b;
    }
  }

  /** Logs only grow along a wave's program. */
  lemma {:induction false} LogGrows(p: Prog, w: nat, s: nat, pos: nat, s': nat)
    requires s <= s' && pos <= |p.code(w, s)|
    ensures TrackAt(p, w, s, pos).log <= TrackAt(p, w, s', |p.code(w, s')|).log
    decreases s' - s, |p.code(w, s)| - pos
  {
    if pos < |p.code(w, s)| {
      assert TrackAt(p, w, s, pos).log <= TrackAt(p, w, s, pos + 1).log;
      LogGrows(p, w, s, pos + 1, s');
    } else if s < s' {
      assert TrackAt(p, w, s + 1, 0) == TrackAt(p, w, s, pos);
      LogGrows(p, w, s + 1, 0, s');
    }
  }

  /** What a run has to achieve: each wave reads the `count` tiles of a kind one by one, in order
      and whole; a wave that has finished has read all; runs are bounded, and one that cannot
      be extended has finished everywhere. */
  ghost predicate ReadsAll(p: Prog, l: Layout, steps: seq<Step>, w: nat, kind: Kind, count: nat)
    requires CanRun(p, Init(p), steps)
  {
    var st, all := Final(p, Init(p), steps), InOrder(l, kind, count);
    && w < |st| == p.waves
    && Reads(st[w].log, kind) <= all
    && (Done(p, w, st[w]) ==> Reads(st[w].log, kind) == all)
    && |steps| <= TotalLeft(p, Init(p))
    && ((forall step :: !Enabled(p, st, step)) ==> Done(p, w, st[w]))
  }

  /** MAIN. Every run of a scheduled pipeline reads what it should. */
  lemma ReadsInOrder(p: Prog, l: Layout, facts: (nat, nat) -> Facts, steps: seq<Step>, w: nat, kind: Kind)
    requires Scheduled(p, l, facts) && CanRun(p, Init(p), steps) && w < p.waves && l.slots(kind) > 0
    ensures ReadsAll(p, l, steps, w, kind, facts(w, p.segs(w)).consumed.Of(kind))
  {
    hide Scheduled, CanRun, Final, TotalLeft, Valid, Inv, Reads, InOrder, Enabled, TrackAt, Bars;
    ScheduledIsValid(p, l, facts);
    Observes(p, steps, w);
    var ws, e := Final(p, Init(p), steps)[w], p.segs(w);
    LogGrows(p, w, ws.seg, ws.pos, e);
    EndLog(p, l, facts, w, kind);
    ReadsPrefix(ws.log, TrackAt(p, w, e, 0).log, kind);
    InitInv(p);
    RunsAreBounded(p, Init(p), steps);
    if forall step :: !Enabled(p, Final(p, Init(p), steps), step) {
      StuckOnlyWhenDone(p, steps, w);
    }
  }

  lemma EndLog(p: Prog, l: Layout, facts: (nat, nat) -> Facts, w: nat, kind: Kind)
    requires Scheduled(p, l, facts) && w < p.waves && l.slots(kind) > 0
    ensures p.code(w, p.segs(w)) == []
    ensures Reads(TrackAt(p, w, p.segs(w), 0).log, kind) == InOrder(l, kind, facts(w, p.segs(w)).consumed.Of(kind))
  {
    assert Know(p, w, l, TrackAt(p, w, p.segs(w), 0), facts(w, p.segs(w)));
  }

  lemma {:induction false} LiveFrom(p: Prog, w: nat, l: Layout, tags: seq<Tag>)
    ensures forall c :: c in Live(p, w, l, tags) ==> exists t :: t in tags && c == l.CopyOf(t.kind, t.x)
    decreases |tags|
  {
    if tags != [] {
      var k := |tags| - 1;
      LiveFrom(p, w, l, tags[..k]);
      assert forall t :: t in tags[..k] ==> t in tags;
      assert tags[k] in tags;
    }
  }

  /** MAIN. At the start of a segment, the copies really in flight are among those the facts allow. */
  lemma InFlightAllowed(p: Prog, l: Layout, facts: (nat, nat) -> Facts, steps: seq<Step>, w: nat, c: Copy)
    requires Scheduled(p, l, facts) && CanRun(p, Init(p), steps) && w < p.waves
    requires var st := Final(p, Init(p), steps); |st| == p.waves && st[w].pos == 0 && c in st[w].vm.copies
    ensures var st := Final(p, Init(p), steps); exists t :: t in facts(w, st[w].seg).vm && c == l.CopyOf(t.kind, t.x)
  {
    hide LocalOk, SteadyDuring, Bars, TrackAt, Live, LdsOk, RingOk, LogOk;
    ScheduledIsValid(p, l, facts);
    InitInv(p);
    RunKeeps(p, Init(p), steps);
    var ws := Final(p, Init(p), steps)[w];
    var t, f := TrackAt(p, w, ws.seg, 0), facts(w, ws.seg);
    assert WaveInv(p, w, ws);
    assert Know(p, w, l, t, f);
    assert c in t.vm;
    assert c in Live(p, w, l, f.vm);
    LiveFrom(p, w, l, f.vm);
  }
}
