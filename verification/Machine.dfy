/** The hardware the attention kernels run on, as a step system.

    A workgroup is a number of waves. Each wave runs straight-line segments of
    instructions; a segment may end in `s_barrier`. Copies into LDS are asynchronous:
    they sit in a FIFO of the issuing wave (one for vector memory, one for LDS writes)
    and land one line at a time, at any moment, in issue order. `s_waitcnt` blocks until
    at most `n` lines of a FIFO are outstanding; `s_barrier` is a rendezvous of all waves.

    `Track` is what one wave alone can know at a program point: which tile it last sent
    to each region, and which copies may still be in flight. `Valid` is the static
    discipline on a program, and `Observes` shows that it is enough: in every
    interleaving each LDS read sees exactly the tile the program order promises. */
module Machine {

  /** What an LDS region holds: K rows, V rows, an auxiliary tile (a wave's bias; in the MLA
      kernel the rows of a tile that its last tile zero-fills), or transposed V. */
  datatype Kind = KTile | VTile | AuxTile | VtStage
  datatype Region = Region(kind: Kind, buf: nat)
  datatype Queue = Vm | Lgkm

  /** One tile load: this wave's share of tile `tile`, sent to `region`. */
  datatype Copy = Copy(region: Region, tile: int)

  datatype Instr =
    | Load(queue: Queue, copy: Copy)
    | Wait(queue: Queue, n: nat)
    | Read(region: Region)     // reads the lines every wave filled
    | ReadOwn(region: Region)  // reads only the lines this wave filled
    | Barrier

  /** `lines(w, r)`: how many lines of region `r` wave `w` fills in one load. */
  datatype Prog = Prog(waves: nat, segs: nat -> nat, code: (nat, nat) -> seq<Instr>, lines: (nat, Region) -> nat)

  datatype Cell = Cell(region: Region, line: nat)
  datatype Obs = Obs(region: Region, tiles: set<int>)

  /** `head` lines of `copies[0]` have landed. */
  datatype Fifo = Fifo(copies: seq<Copy>, head: nat)

  datatype Wave = Wave(seg: nat, pos: nat, vm: Fifo, lgkm: Fifo, lds: map<Cell, int>, log: seq<Obs>) {
    function Q(q: Queue): Fifo {
      if q == Vm then vm else lgkm
    }
    function SetQ(q: Queue, f: Fifo): Wave {
      if q == Vm then this.(vm := f) else this.(lgkm := f)
    }
  }

  type State = seq<Wave>

  datatype Step = Exec(w: nat) | Land(w: nat, queue: Queue) | Sync

  // ---------------------------------------------------------------- dynamics

  function Lines(p: Prog, w: nat, cs: seq<Copy>): nat {
    if cs == [] then 0 else p.lines(w, cs[0].region) + Lines(p, w, cs[1..])
  }

  function Outstanding(p: Prog, w: nat, f: Fifo): int {
    Lines(p, w, f.copies) - f.head
  }

  function TileAt(ws: Wave, r: Region, l: nat): int {
    if Cell(r, l) in ws.lds then ws.lds[Cell(r, l)] else -1
  }

  /** All tiles of which some line is present in region `r`: one element unless torn. */
  ghost function Seen(p: Prog, st: State, r: Region): set<int> {
    set w: nat, l: nat | 0 <= w < |st| && 0 <= l < p.lines(w, r) :: TileAt(st[w], r, l)
  }

  ghost function SeenOwn(p: Prog, st: State, w: nat, r: Region): set<int>
    requires w < |st|
  {
    set l: nat | 0 <= l < p.lines(w, r) :: TileAt(st[w], r, l)
  }

  predicate AtInstr(p: Prog, w: nat, ws: Wave) {
    ws.pos < |p.code(w, ws.seg)|
  }

  predicate AtBarrier(p: Prog, w: nat, ws: Wave) {
    AtInstr(p, w, ws) && p.code(w, ws.seg)[ws.pos].Barrier?
  }

  predicate Done(p: Prog, w: nat, ws: Wave) {
    !AtInstr(p, w, ws) && ws.seg >= p.segs(w)
  }

  predicate Enabled(p: Prog, st: State, step: Step) {
    match step
    case Exec(w) =>
      && w < |st|
      && (if AtInstr(p, w, st[w]) then
            var i := p.code(w, st[w].seg)[st[w].pos];
            !i.Barrier? && (i.Wait? ==> Outstanding(p, w, st[w].Q(i.queue)) <= i.n)
          else st[w].seg < p.segs(w))
    case Land(w, q) => w < |st| && st[w].Q(q).copies != []
    case Sync => forall w :: 0 <= w < |st| ==> AtBarrier(p, w, st[w])
  }

  ghost function RunInstr(p: Prog, st: State, w: nat, i: Instr): Wave
    requires w < |st|
  {
    var ws := st[w].(pos := st[w].pos + 1);
    match i
    case Load(q, c) =>
      if p.lines(w, c.region) == 0 then ws
      else ws.SetQ(q, Fifo(ws.Q(q).copies + [c], ws.Q(q).head))
    case Wait(_, _) => ws
    case Read(r) => ws.(log := ws.log + [Obs(r, Seen(p, st, r))])
    case ReadOwn(r) => ws.(log := ws.log + [Obs(r, SeenOwn(p, st, w, r))])
    case Barrier => ws
  }

  function LandLine(p: Prog, w: nat, ws: Wave, q: Queue): Wave
    requires ws.Q(q).copies != []
  {
    var f := ws.Q(q);
    var c := f.copies[0];
    var rest := if f.head + 1 < p.lines(w, c.region) then Fifo(f.copies, f.head + 1) else Fifo(f.copies[1..], 0);
    ws.(lds := ws.lds[Cell(c.region, f.head) := c.tile]).SetQ(q, rest)
  }

  ghost function Next(p: Prog, st: State, step: Step): State
    requires Enabled(p, st, step)
  {
    match step
    case Exec(w) =>
      if AtInstr(p, w, st[w]) then st[w := RunInstr(p, st, w, p.code(w, st[w].seg)[st[w].pos])]
      else st[w := st[w].(seg := st[w].seg + 1, pos := 0)]
    case Land(w, q) => st[w := LandLine(p, w, st[w], q)]
    case Sync => seq(|st|, w requires 0 <= w < |st| => st[w].(seg := st[w].seg + 1, pos := 0))
  }

  const START: Wave := Wave(0, 0, Fifo([], 0), Fifo([], 0), map[], [])

  function Init(p: Prog): State {
    seq(p.waves, _ => START)
  }

  /** Every step of `steps` is enabled when its turn comes. */
  ghost predicate CanRun(p: Prog, st: State, steps: seq<Step>)
    decreases |steps|
  {
    steps != [] ==> Enabled(p, st, steps[0]) && CanRun(p, Next(p, st, steps[0]), steps[1..])
  }

  ghost function Final(p: Prog, st: State, steps: seq<Step>): State
    requires CanRun(p, st, steps)
    decreases |steps|
  {
    if steps == [] then st else Final(p, Next(p, st, steps[0]), steps[1..])
  }

  // ------------------------------------------------------- what one wave knows

  datatype Track = Track(mem: map<Region, int>, vm: seq<Copy>, lgkm: seq<Copy>, log: seq<Obs>) {
    function Q(q: Queue): seq<Copy> {
      if q == Vm then vm else lgkm
    }
    function SetQ(q: Queue, cs: seq<Copy>): Track {
      if q == Vm then this.(vm := cs) else this.(lgkm := cs)
    }
    predicate Pending(r: Region) {
      (exists c :: c in vm && c.region == r) || (exists c :: c in lgkm && c.region == r)
    }
  }

  /** The copies that may be outstanding once at most `n` lines are. */
  function Trim(p: Prog, w: nat, cs: seq<Copy>, n: nat): seq<Copy> {
    if cs != [] && Lines(p, w, cs[1..]) >= n then Trim(p, w, cs[1..], n) else cs
  }

  function Latest(t: Track, r: Region): int {
    if r in t.mem then t.mem[r] else -1
  }

  function After(p: Prog, w: nat, t: Track, i: Instr): Track {
    match i
    case Load(q, c) =>
      var t' := t.(mem := t.mem[c.region := c.tile]);
      if p.lines(w, c.region) == 0 then t' else t'.SetQ(q, t.Q(q) + [c])
    case Wait(q, n) => t.SetQ(q, Trim(p, w, t.Q(q), n))
    case Read(r) => t.(log := t.log + [Obs(r, {Latest(t, r)})])
    case ReadOwn(r) => t.(log := t.log + [Obs(r, {Latest(t, r)})])
    case Barrier => t
  }

  const NOTHING: Track := Track(map[], [], [], [])

  function TrackAt(p: Prog, w: nat, s: nat, pos: nat): Track
    requires pos <= |p.code(w, s)|
    decreases s, pos
  {
    if pos > 0 then After(p, w, TrackAt(p, w, s, pos - 1), p.code(w, s)[pos - 1])
    else if s > 0 then TrackAt(p, w, s - 1, |p.code(w, s - 1)|)
    else NOTHING
  }

  predicate EndsInBarrier(code: seq<Instr>) {
    code != [] && code[|code| - 1].Barrier?
  }

  /** How many barriers wave `w` has passed when it starts segment `s`. */
  function Bars(p: Prog, w: nat, s: nat): nat {
    if s == 0 then 0 else Bars(p, w, s - 1) + if EndsInBarrier(p.code(w, s - 1)) then 1 else 0
  }

  predicate Loads(code: seq<Instr>, r: Region) {
    exists i :: i in code && i.Load? && i.copy.region == r
  }

  /** Wave `w` holds tile `x` in its share of `r`, with nothing in flight, all through segment `s`. */
  predicate Quiet(p: Prog, w: nat, s: nat, r: Region, x: int) {
    var t := TrackAt(p, w, s, 0);
    r in t.mem && t.mem[r] == x && !t.Pending(r) && !Loads(p.code(w, s), r)
  }

  /** Some wave brings lines of region `r`. */
  predicate Fills(p: Prog, r: Region) {
    exists u: nat :: u < p.waves && p.lines(u, r) > 0
  }

  ghost predicate InstrValid(p: Prog, w: nat, s: nat, pos: nat)
    requires pos < |p.code(w, s)|
  {
    var t := TrackAt(p, w, s, pos);
    match p.code(w, s)[pos]
    case Barrier => pos == |p.code(w, s)| - 1
    case Load(_, c) => !t.Pending(c.region)
    case Wait(_, _) => true
    case ReadOwn(r) => r in t.mem && !t.Pending(r) && p.lines(w, r) > 0
    case Read(r) =>
      && Fills(p, r)
      && (forall w', s' :: 0 <= w' < p.waves && 0 <= s' <= p.segs(w') && Bars(p, w', s') == Bars(p, w, s)
                           ==> Quiet(p, w', s', r, Latest(t, r)))
  }

  ghost predicate SegValid(p: Prog, w: nat, s: nat) {
    forall pos :: 0 <= pos < |p.code(w, s)| ==> InstrValid(p, w, s, pos)
  }

  ghost predicate Valid(p: Prog) {
    && (forall w, s :: 0 <= w < p.waves && 0 <= s <= p.segs(w) ==> SegValid(p, w, s))
    && (forall w :: 0 <= w < p.waves ==> !EndsInBarrier(p.code(w, p.segs(w))))
    && (forall w, w' :: 0 <= w < p.waves && 0 <= w' < p.waves ==> Bars(p, w, p.segs(w)) == Bars(p, w', p.segs(w')))
  }

  // ---------------------------------------------------------------- invariant

  predicate IsSuffix<T(==)>(a: seq<T>, b: seq<T>) {
    |a| <= |b| && a == b[|b| - |a|..]
  }

  predicate FifoOk(p: Prog, w: nat, f: Fifo, cs: seq<Copy>) {
    && IsSuffix(f.copies, cs)
    && (if f.copies == [] then f.head == 0 else f.head < p.lines(w, f.copies[0].region))
  }

  predicate InFlight(ws: Wave, r: Region) {
    (exists c :: c in ws.vm.copies && c.region == r) || (exists c :: c in ws.lgkm.copies && c.region == r)
  }

  /** Line `l` of `r` has certainly received the wave's latest copy. */
  predicate Landed(ws: Wave, r: Region, l: nat) {
    || !InFlight(ws, r)
    || (ws.vm.copies != [] && ws.vm.copies[0].region == r && l < ws.vm.head)
    || (ws.lgkm.copies != [] && ws.lgkm.copies[0].region == r && l < ws.lgkm.head)
  }

  ghost predicate LdsOk(p: Prog, w: nat, ws: Wave, mem: map<Region, int>) {
    forall r, l: nat :: r in mem && l < p.lines(w, r) && Landed(ws, r, l) ==> TileAt(ws, r, l) == mem[r]
  }

  /** Copies that may be pending carry the latest tile of their region, one copy per region. */
  predicate TrackOk(p: Prog, w: nat, t: Track) {
    && (forall c :: c in t.vm ==> p.lines(w, c.region) > 0)
    && (forall c :: c in t.lgkm ==> p.lines(w, c.region) > 0)
    && (forall c :: c in t.vm ==> c.region in t.mem && t.mem[c.region] == c.tile)
    && (forall c :: c in t.lgkm ==> c.region in t.mem && t.mem[c.region] == c.tile)
    && (forall i, j :: 0 <= i < j < |t.vm| ==> t.vm[i].region != t.vm[j].region)
    && (forall i, j :: 0 <= i < j < |t.lgkm| ==> t.lgkm[i].region != t.lgkm[j].region)
    && (forall c, d :: c in t.vm && d in t.lgkm ==> c.region != d.region)
  }

  /** The wave `ws` is in a state that the knowledge `t` describes. */
  ghost predicate WaveOk(p: Prog, w: nat, ws: Wave, t: Track) {
    && TrackOk(p, w, t)
    && FifoOk(p, w, ws.vm, t.vm)
    && FifoOk(p, w, ws.lgkm, t.lgkm)
    && ws.log == t.log
    && LdsOk(p, w, ws, t.mem)
  }

  ghost predicate WaveInv(p: Prog, w: nat, ws: Wave) {
    && ws.seg <= p.segs(w)
    && ws.pos <= |p.code(w, ws.seg)|
    && (EndsInBarrier(p.code(w, ws.seg)) ==> ws.pos < |p.code(w, ws.seg)|)
    && WaveOk(p, w, ws, TrackAt(p, w, ws.seg, ws.pos))
  }

  ghost predicate Inv(p: Prog, st: State) {
    && |st| == p.waves
    && (forall w :: 0 <= w < |st| ==> WaveInv(p, w, st[w]))
    && (forall w, w' :: 0 <= w < |st| && 0 <= w' < |st| ==> Bars(p, w, st[w].seg) == Bars(p, w', st[w'].seg))
  }

  // ------------------------------------------------------------------- proofs

  lemma QuietStays(p: Prog, w: nat, s: nat, pos: nat, r: Region, x: int)
    requires pos <= |p.code(w, s)| && Quiet(p, w, s, r, x)
    ensures var t := TrackAt(p, w, s, pos); r in t.mem && t.mem[r] == x && !t.Pending(r)
    decreases pos
  {
    if pos > 0 {
      QuietStays(p, w, s, pos - 1, r, x);
      var t := TrackAt(p, w, s, pos - 1);
      var i := p.code(w, s)[pos - 1];
      assert i in p.code(w, s);
      if i.Wait? {
        TrimIsSuffix(p, w, t.Q(i.queue), i.n);
      }
    }
  }

  lemma TrimIsSuffix(p: Prog, w: nat, cs: seq<Copy>, n: nat)
    ensures IsSuffix(Trim(p, w, cs, n), cs)
  {
    if cs != [] && Lines(p, w, cs[1..]) >= n {
      TrimIsSuffix(p, w, cs[1..], n);
    }
  }

  lemma LinesSuffix(p: Prog, w: nat, a: seq<Copy>, b: seq<Copy>)
    requires IsSuffix(a, b)
    ensures Lines(p, w, a) <= Lines(p, w, b)
  {
    if |a| < |b| {
      LinesSuffix(p, w, a, b[1..]);
    }
  }

  /** What really is outstanding after a wait is within what `Trim` keeps. */
  lemma WaitKeepsSuffix(p: Prog, w: nat, f: Fifo, cs: seq<Copy>, n: nat)
    requires FifoOk(p, w, f, cs) && Outstanding(p, w, f) <= n
    ensures FifoOk(p, w, f, Trim(p, w, cs, n))
  {
    if cs != [] && Lines(p, w, cs[1..]) >= n {
      if |f.copies| == |cs| {
        assert false;
      } else {
        assert IsSuffix(f.copies, cs[1..]);
        WaitKeepsSuffix(p, w, f, cs[1..], n);
      }
    }
  }

  /** A wave that is quiet for `r` has its whole share in place. */
  lemma QuietLine(p: Prog, w: nat, ws: Wave, r: Region, x: int, l: nat)
    requires WaveInv(p, w, ws) && Quiet(p, w, ws.seg, r, x) && l < p.lines(w, r)
    ensures TileAt(ws, r, l) == x
  {
    hide TrackAt, TrackOk, Loads;
    QuietStays(p, w, ws.seg, ws.pos, r, x);
    assert !InFlight(ws, r);
  }

  /** What the static discipline says about the read that a wave is at. */
  lemma ReadIsValid(p: Prog, st: State, w: nat, r: Region)
    requires Valid(p) && Inv(p, st) && w < |st| && AtInstr(p, w, st[w])
    requires p.code(w, st[w].seg)[st[w].pos] == Read(r)
    ensures Fills(p, r)
    ensures var x := Latest(TrackAt(p, w, st[w].seg, st[w].pos), r);
      forall u :: 0 <= u < |st| ==> WaveInv(p, u, st[u]) && Quiet(p, u, st[u].seg, r, x)
  {
    hide TrackAt, Quiet, Bars, Latest, WaveOk, EndsInBarrier;
    assert SegValid(p, w, st[w].seg);
    assert InstrValid(p, w, st[w].seg, st[w].pos);
  }

  lemma ReadSeesLatest(p: Prog, st: State, w: nat, r: Region)
    requires Valid(p) && Inv(p, st) && w < |st| && AtInstr(p, w, st[w])
    requires p.code(w, st[w].seg)[st[w].pos] == Read(r)
    ensures Seen(p, st, r) == {Latest(TrackAt(p, w, st[w].seg, st[w].pos), r)}
  {
    hide Valid, WaveInv, Quiet, TrackAt, Latest, TileAt, Bars;
    var x := Latest(TrackAt(p, w, st[w].seg, st[w].pos), r);
    ReadIsValid(p, st, w, r);
    forall u: nat, l: nat | u < |st| && l < p.lines(u, r) ensures TileAt(st[u], r, l) == x {
      QuietLine(p, u, st[u], r, x, l);
    }
    var u: nat :| u < p.waves && p.lines(u, r) > 0;
    assert TileAt(st[u], r, 0) in Seen(p, st, r);
  }

  lemma OwnReadSeesLatest(p: Prog, st: State, w: nat, r: Region)
    requires Valid(p) && Inv(p, st) && w < |st| && AtInstr(p, w, st[w])
    requires p.code(w, st[w].seg)[st[w].pos] == ReadOwn(r)
    ensures SeenOwn(p, st, w, r) == {Latest(TrackAt(p, w, st[w].seg, st[w].pos), r)}
  {
    var x := Latest(TrackAt(p, w, st[w].seg, st[w].pos), r);
    assert SegValid(p, w, st[w].seg);
    assert InstrValid(p, w, st[w].seg, st[w].pos);
    assert !InFlight(st[w], r);
    assert forall l: nat :: l < p.lines(w, r) ==> TileAt(st[w], r, l) == x;
    assert TileAt(st[w], r, 0) in SeenOwn(p, st, w, r);
  }

  lemma SameLds(p: Prog, w: nat, ws: Wave, ws': Wave, mem: map<Region, int>)
    requires LdsOk(p, w, ws, mem) && ws'.lds == ws.lds && ws'.vm == ws.vm && ws'.lgkm == ws.lgkm
    ensures LdsOk(p, w, ws', mem)
  {
    forall r, l: nat | r in mem && l < p.lines(w, r) && Landed(ws', r, l)
      ensures TileAt(ws', r, l) == mem[r]
    {
      assert Landed(ws, r, l);
      assert TileAt(ws', r, l) == TileAt(ws, r, l);
    }
  }

  lemma PushFifo(p: Prog, w: nat, f: Fifo, cs: seq<Copy>, c: Copy)
    requires FifoOk(p, w, f, cs) && p.lines(w, c.region) > 0
    ensures FifoOk(p, w, Fifo(f.copies + [c], f.head), cs + [c])
  {
    assert f.copies + [c] == (cs + [c])[|cs| - |f.copies|..];
  }

  /** A region is unlanded as soon as a copy to it is issued, and the others are as before. */
  lemma PushLanded(ws: Wave, q: Queue, c: Copy, ws': Wave, r: Region, l: nat)
    requires !InFlight(ws, c.region) && Landed(ws', r, l)
    requires ws.Q(q).copies == [] ==> ws.Q(q).head == 0
    requires ws' == ws.(pos := ws'.pos).SetQ(q, Fifo(ws.Q(q).copies + [c], ws.Q(q).head))
    ensures r != c.region && Landed(ws, r, l)
  {
    var cs := ws.Q(q).copies;
    assert ws'.Q(q).copies[|cs|] == c;
    assert c in ws'.Q(q).copies;
    assert cs != [] ==> cs[0] in cs;
    assert forall d :: d in cs ==> d in ws'.Q(q).copies;
    assert InFlight(ws', c.region);
    assert cs == [] ==> ws'.Q(q).copies == [c];
  }

  lemma LoadLds(p: Prog, w: nat, ws: Wave, mem: map<Region, int>, q: Queue, c: Copy, ws': Wave)
    requires LdsOk(p, w, ws, mem) && !InFlight(ws, c.region)
    requires ws.Q(q).copies == [] ==> ws.Q(q).head == 0
    requires ws' == ws.(pos := ws'.pos).SetQ(q, Fifo(ws.Q(q).copies + [c], ws.Q(q).head))
    ensures LdsOk(p, w, ws', mem[c.region := c.tile])
  {
    forall r, l: nat | r in mem[c.region := c.tile] && l < p.lines(w, r) && Landed(ws', r, l)
      ensures TileAt(ws', r, l) == mem[c.region := c.tile][r]
    {
      PushLanded(ws, q, c, ws', r, l);
      assert TileAt(ws', r, l) == TileAt(ws, r, l);
    }
  }

  /** Issuing a copy: the region becomes in flight, every other region keeps its lines. */
  lemma LoadKeeps(p: Prog, w: nat, ws: Wave, t: Track, q: Queue, c: Copy, ws': Wave)
    requires WaveOk(p, w, ws, t) && !t.Pending(c.region) && p.lines(w, c.region) > 0
    requires ws' == ws.(pos := ws'.pos).SetQ(q, Fifo(ws.Q(q).copies + [c], ws.Q(q).head))
    ensures WaveOk(p, w, ws', After(p, w, t, Load(q, c)))
  {
    NotPendingNotInFlight(p, w, ws, t, c.region);
    PushFifo(p, w, ws.Q(q), t.Q(q), c);
    LoadTrackOk(p, w, t, q, c);
    LoadLds(p, w, ws, t.mem, q, c, ws');
  }

  lemma NotPendingNotInFlight(p: Prog, w: nat, ws: Wave, t: Track, r: Region)
    requires FifoOk(p, w, ws.vm, t.vm) && FifoOk(p, w, ws.lgkm, t.lgkm) && !t.Pending(r)
    ensures !InFlight(ws, r)
  {
    assert forall d :: d in ws.vm.copies ==> d in t.vm;
    assert forall d :: d in ws.lgkm.copies ==> d in t.lgkm;
  }

  lemma LoadTrackOk(p: Prog, w: nat, t: Track, q: Queue, c: Copy)
    requires TrackOk(p, w, t) && !t.Pending(c.region) && p.lines(w, c.region) > 0
    ensures TrackOk(p, w, After(p, w, t, Load(q, c)))
  {
  }

  lemma WaitKeeps(p: Prog, w: nat, ws: Wave, t: Track, q: Queue, n: nat, ws': Wave)
    requires WaveOk(p, w, ws, t) && Outstanding(p, w, ws.Q(q)) <= n
    requires ws'.lds == ws.lds && ws'.log == ws.log && ws'.vm == ws.vm && ws'.lgkm == ws.lgkm
    ensures WaveOk(p, w, ws', After(p, w, t, Wait(q, n)))
  {
    TrimIsSuffix(p, w, t.Q(q), n);
    WaitKeepsSuffix(p, w, ws.Q(q), t.Q(q), n);
    SameLds(p, w, ws, ws', t.mem);
  }

  lemma ReadKeeps(p: Prog, w: nat, ws: Wave, t: Track, o: Obs, ws': Wave)
    requires WaveOk(p, w, ws, t)
    requires ws'.lds == ws.lds && ws'.log == ws.log + [o] && ws'.vm == ws.vm && ws'.lgkm == ws.lgkm
    ensures WaveOk(p, w, ws', t.(log := t.log + [o]))
  {
    SameLds(p, w, ws, ws', t.mem);
  }

  lemma EmptyLoadKeeps(p: Prog, w: nat, ws: Wave, t: Track, q: Queue, c: Copy, ws': Wave)
    requires WaveOk(p, w, ws, t) && !t.Pending(c.region) && p.lines(w, c.region) == 0
    requires ws'.lds == ws.lds && ws'.log == ws.log && ws'.vm == ws.vm && ws'.lgkm == ws.lgkm
    ensures WaveOk(p, w, ws', After(p, w, t, Load(q, c)))
  {
    var t' := After(p, w, t, Load(q, c));
    forall r, l: nat | r in t'.mem && l < p.lines(w, r) && Landed(ws', r, l)
      ensures TileAt(ws', r, l) == t'.mem[r]
    {
      assert Landed(ws, r, l);
    }
  }

  lemma InstrKeeps(p: Prog, st: State, w: nat)
    requires Valid(p) && Inv(p, st) && Enabled(p, st, Exec(w)) && AtInstr(p, w, st[w])
    ensures WaveInv(p, w, Next(p, st, Exec(w))[w])
  {
    hide Trim, Outstanding, WaveOk, Lines;
    var ws := st[w];
    var i := p.code(w, ws.seg)[ws.pos];
    var ws' := RunInstr(p, st, w, i);
    var t := TrackAt(p, w, ws.seg, ws.pos);
    assert SegValid(p, w, ws.seg);
    assert InstrValid(p, w, ws.seg, ws.pos);
    assert TrackAt(p, w, ws.seg, ws.pos + 1) == After(p, w, t, i);
    match i {
      case Load(q, c) =>
        if p.lines(w, c.region) == 0 {
          EmptyLoadKeeps(p, w, ws, t, q, c, ws');
        } else {
          LoadKeeps(p, w, ws, t, q, c, ws');
        }
      case Wait(q, n) => WaitKeeps(p, w, ws, t, q, n, ws');
      case Read(r) =>
        ReadSeesLatest(p, st, w, r);
        ReadKeeps(p, w, ws, t, Obs(r, {Latest(t, r)}), ws');
      case ReadOwn(r) =>
        OwnReadSeesLatest(p, st, w, r);
        ReadKeeps(p, w, ws, t, Obs(r, {Latest(t, r)}), ws');
    }
  }

  lemma AdvanceKeeps(p: Prog, w: nat, ws: Wave)
    requires WaveInv(p, w, ws) && !AtInstr(p, w, ws) && ws.seg < p.segs(w)
    ensures WaveInv(p, w, ws.(seg := ws.seg + 1, pos := 0))
    ensures Bars(p, w, ws.seg + 1) == Bars(p, w, ws.seg)
  {
    assert TrackAt(p, w, ws.seg + 1, 0) == TrackAt(p, w, ws.seg, ws.pos);
    SameLds(p, w, ws, ws.(seg := ws.seg + 1, pos := 0), TrackAt(p, w, ws.seg, ws.pos).mem);
  }

  lemma InvUpdate(p: Prog, st: State, w: nat, ws': Wave)
    requires Inv(p, st) && w < |st| && WaveInv(p, w, ws') && Bars(p, w, ws'.seg) == Bars(p, w, st[w].seg)
    ensures Inv(p, st[w := ws'])
  {
    hide WaveInv, Bars;
    var st' := st[w := ws'];
    forall u | 0 <= u < |st'|
      ensures WaveInv(p, u, st'[u]) && Bars(p, u, st'[u].seg) == Bars(p, u, st[u].seg)
    {
      if u == w {
        assert st'[u] == ws';
      } else {
        assert st'[u] == st[u];
      }
    }
  }

  lemma ExecKeeps(p: Prog, st: State, w: nat)
    requires Valid(p) && Inv(p, st) && Enabled(p, st, Exec(w))
    ensures Inv(p, Next(p, st, Exec(w)))
  {
    hide TrackAt, WaveOk;
    if AtInstr(p, w, st[w]) {
      InstrKeeps(p, st, w);
      InvUpdate(p, st, w, RunInstr(p, st, w, p.code(w, st[w].seg)[st[w].pos]));
    } else {
      AdvanceKeeps(p, w, st[w]);
      InvUpdate(p, st, w, st[w].(seg := st[w].seg + 1, pos := 0));
    }
  }

  lemma LandFifo(p: Prog, w: nat, ws: Wave, cs: seq<Copy>, q: Queue)
    requires FifoOk(p, w, ws.Q(q), cs) && ws.Q(q).copies != []
    requires forall c :: c in cs ==> p.lines(w, c.region) > 0
    ensures FifoOk(p, w, LandLine(p, w, ws, q).Q(q), cs)
  {
  }

  lemma LandLds(p: Prog, w: nat, ws: Wave, t: Track, q: Queue)
    requires WaveOk(p, w, ws, t) && ws.Q(q).copies != []
    ensures LdsOk(p, w, LandLine(p, w, ws, q), t.mem)
  {
    hide Lines, Outstanding, TrackAt, Landed, FifoOk;
    var ws' := LandLine(p, w, ws, q);
    var f, c := ws.Q(q), ws.Q(q).copies[0];
    assert c in t.Q(q) by {
      CopiesKnown(p, w, ws, t, q);
    }
    forall r, l: nat | r in t.mem && l < p.lines(w, r) && Landed(ws', r, l)
      ensures TileAt(ws', r, l) == t.mem[r]
    {
      if r != c.region {
        OthersStay(p, w, ws, q, r, l);
      } else if l != f.head {
        LandedBefore(p, w, ws, t, q, l);
      }
    }
  }

  lemma CopiesKnown(p: Prog, w: nat, ws: Wave, t: Track, q: Queue)
    requires FifoOk(p, w, ws.Q(q), t.Q(q))
    ensures forall c :: c in ws.Q(q).copies ==> c in t.Q(q)
  {
  }

  lemma LandKeeps(p: Prog, w: nat, ws: Wave, t: Track, q: Queue)
    requires WaveOk(p, w, ws, t) && ws.Q(q).copies != []
    ensures WaveOk(p, w, LandLine(p, w, ws, q), t)
  {
    hide LdsOk;
    LandLds(p, w, ws, t, q);
    CopiesKnown(p, w, ws, t, q);
    LandFifo(p, w, ws, t.Q(q), q);
  }

  /** Landing line `head` of a region leaves the landed lines below it landed. */
  lemma LandedBefore(p: Prog, w: nat, ws: Wave, t: Track, q: Queue, l: nat)
    requires WaveOk(p, w, ws, t) && ws.Q(q).copies != [] && l != ws.Q(q).head
    requires var c := ws.Q(q).copies[0]; l < p.lines(w, c.region) && Landed(LandLine(p, w, ws, q), c.region, l)
    ensures Landed(ws, ws.Q(q).copies[0].region, l)
  {
    var f, c := ws.Q(q), ws.Q(q).copies[0];
    var ws' := LandLine(p, w, ws, q);
    if f.head + 1 < p.lines(w, c.region) {
      assert ws'.Q(q).copies[0] == c;
      assert InFlight(ws', c.region);
      assert forall d :: d in ws.vm.copies ==> d in t.vm;
      assert forall d :: d in ws.lgkm.copies ==> d in t.lgkm;
    }
  }

  lemma OthersStay(p: Prog, w: nat, ws: Wave, q: Queue, r: Region, l: nat)
    requires ws.Q(q).copies != [] && r != ws.Q(q).copies[0].region
    requires Landed(LandLine(p, w, ws, q), r, l)
    ensures Landed(ws, r, l) && TileAt(LandLine(p, w, ws, q), r, l) == TileAt(ws, r, l)
  {
    var ws' := LandLine(p, w, ws, q);
    var cs := ws.Q(q).copies;
    assert cs == [cs[0]] + cs[1..];
    assert forall c :: c in cs && c.region == r ==> c in cs[1..];
    assert InFlight(ws, r) ==> InFlight(ws', r);
    if InFlight(ws, r) && cs[1..] != [] && ws'.Q(q).copies == cs[1..] {
      assert ws'.Q(q).head == 0;
    }
  }

  /** A barrier is the last instruction of a segment that is not the wave's last. */
  lemma BarrierEnds(p: Prog, w: nat, ws: Wave)
    requires Valid(p) && w < p.waves && WaveInv(p, w, ws) && AtBarrier(p, w, ws)
    ensures ws.pos + 1 == |p.code(w, ws.seg)| && p.code(w, ws.seg)[ws.pos] == Barrier && ws.seg < p.segs(w)
    ensures EndsInBarrier(p.code(w, ws.seg))
  {
    hide TrackAt, WaveOk, Bars;
    assert SegValid(p, w, ws.seg);
    assert InstrValid(p, w, ws.seg, ws.pos);
  }

  /** A wave knows the same before the barrier and at the start of the next segment. */
  lemma TrackAcross(p: Prog, w: nat, s: nat, pos: nat)
    requires pos + 1 == |p.code(w, s)| && p.code(w, s)[pos] == Barrier
    ensures TrackAt(p, w, s + 1, 0) == TrackAt(p, w, s, pos)
  {
    assert TrackAt(p, w, s, pos + 1) == TrackAt(p, w, s, pos);
  }

  lemma WaveOkAcross(p: Prog, w: nat, ws: Wave, t: Track)
    requires WaveOk(p, w, ws, t)
    ensures WaveOk(p, w, ws.(seg := ws.seg + 1, pos := 0), t)
  {
    hide TrackOk, FifoOk, LdsOk;
    SameLds(p, w, ws, ws.(seg := ws.seg + 1, pos := 0), t.mem);
  }

  lemma PassBarrier(p: Prog, w: nat, ws: Wave)
    requires Valid(p) && w < p.waves && WaveInv(p, w, ws) && AtBarrier(p, w, ws)
    ensures WaveInv(p, w, ws.(seg := ws.seg + 1, pos := 0))
    ensures Bars(p, w, ws.seg + 1) == Bars(p, w, ws.seg) + 1
  {
    hide Valid, TrackAt, WaveOk, AtBarrier;
    BarrierEnds(p, w, ws);
    TrackAcross(p, w, ws.seg, ws.pos);
    WaveOkAcross(p, w, ws, TrackAt(p, w, ws.seg, ws.pos));
  }

  lemma SyncKeeps(p: Prog, st: State)
    requires Valid(p) && Inv(p, st) && Enabled(p, st, Sync)
    ensures Inv(p, Next(p, st, Sync))
  {
    hide WaveInv, Valid, Bars;
    var st' := Next(p, st, Sync);
    forall w | 0 <= w < |st|
      ensures WaveInv(p, w, st'[w]) && Bars(p, w, st'[w].seg) == Bars(p, w, st[w].seg) + 1
    {
      PassBarrier(p, w, st[w]);
    }
  }

  lemma StepKeeps(p: Prog, st: State, step: Step)
    requires Valid(p) && Inv(p, st) && Enabled(p, st, step)
    ensures Inv(p, Next(p, st, step))
  {
    match step {
      case Exec(w) => ExecKeeps(p, st, w);
      case Land(w, q) =>
        LandKeeps(p, w, st[w], TrackAt(p, w, st[w].seg, st[w].pos), q);
        InvUpdate(p, st, w, LandLine(p, w, st[w], q));
      case Sync => SyncKeeps(p, st);
    }
  }

  lemma {:induction false} RunKeeps(p: Prog, st: State, steps: seq<Step>)
    requires Valid(p) && Inv(p, st) && CanRun(p, st, steps)
    ensures Inv(p, Final(p, st, steps))
    decreases |steps|
  {
    if steps != [] {
      StepKeeps(p, st, steps[0]);
      RunKeeps(p, Next(p, st, steps[0]), steps[1..]);
    }
  }

  /** MAIN. In every run of a valid program, each wave's reads saw exactly what its own
      program order says they must see, whole and untorn. */
  lemma Observes(p: Prog, steps: seq<Step>, w: nat)
    requires Valid(p) && CanRun(p, Init(p), steps) && w < p.waves
    ensures var st := Final(p, Init(p), steps);
      && |st| == p.waves
      && st[w].seg <= p.segs(w) && st[w].pos <= |p.code(w, st[w].seg)|
      && st[w].log == TrackAt(p, w, st[w].seg, st[w].pos).log
  {
    InitInv(p);
    RunKeeps(p, Init(p), steps);
  }

  lemma InitInv(p: Prog)
    requires Valid(p)
    ensures Inv(p, Init(p))
  {
    forall w | 0 <= w < p.waves ensures WaveInv(p, w, START) {
      assert TrackAt(p, w, 0, 0) == NOTHING;
    }
  }

  /** MAIN. While some wave still has to read `r` before the next barrier, no copy of any
      wave to `r` is in flight. */
  lemma NoOverwriteWhileReadable(p: Prog, steps: seq<Step>, u: nat, pos: nat, r: Region, w: nat)
    requires Valid(p) && CanRun(p, Init(p), steps) && u < p.waves && w < p.waves
    requires var st := Final(p, Init(p), steps);
      |st| == p.waves && st[u].seg <= p.segs(u) && pos < |p.code(u, st[u].seg)| && p.code(u, st[u].seg)[pos] == Read(r)
    ensures !InFlight(Final(p, Init(p), steps)[w], r)
  {
    InitInv(p);
    RunKeeps(p, Init(p), steps);
    var st := Final(p, Init(p), steps);
    assert SegValid(p, u, st[u].seg);
    assert InstrValid(p, u, st[u].seg, pos);
    var x := Latest(TrackAt(p, u, st[u].seg, pos), r);
    assert Quiet(p, w, st[w].seg, r, x);
    QuietStays(p, w, st[w].seg, st[w].pos, r, x);
    NotPendingNotInFlight(p, w, st[w], TrackAt(p, w, st[w].seg, st[w].pos), r);
  }

  // ----------------------------------------------------------- runs come to an end

  function Weight(p: Prog, w: nat, i: Instr): nat {
    if i.Load? then 1 + p.lines(w, i.copy.region) else 1
  }

  /** Work in the instructions a wave has not executed yet. */
  function Rest(p: Prog, w: nat, s: nat, pos: nat): nat
    decreases p.segs(w) - s, |p.code(w, s)| - pos
  {
    if pos < |p.code(w, s)| then Weight(p, w, p.code(w, s)[pos]) + Rest(p, w, s, pos + 1)
    else if s < p.segs(w) then 1 + Rest(p, w, s + 1, 0)
    else 0
  }

  function Left(p: Prog, w: nat, ws: Wave): int {
    Rest(p, w, ws.seg, ws.pos) + Outstanding(p, w, ws.vm) + Outstanding(p, w, ws.lgkm)
  }

  function TotalLeft(p: Prog, st: State): int
    decreases |st|
  {
    if st == [] then 0 else TotalLeft(p, st[..|st| - 1]) + Left(p, |st| - 1, st[|st| - 1])
  }

  lemma LinesAppend(p: Prog, w: nat, cs: seq<Copy>, c: Copy)
    ensures Lines(p, w, cs + [c]) == Lines(p, w, cs) + p.lines(w, c.region)
  {
    if cs != [] {
      assert (cs + [c])[1..] == cs[1..] + [c];
      LinesAppend(p, w, cs[1..], c);
    }
  }

  lemma OutstandingNat(p: Prog, w: nat, f: Fifo, cs: seq<Copy>)
    requires FifoOk(p, w, f, cs)
    ensures Outstanding(p, w, f) >= 0 && (Outstanding(p, w, f) == 0 ==> f.copies == [])
  {
  }

  lemma {:induction false} TotalNat(p: Prog, st: State)
    requires forall w :: 0 <= w < |st| ==> WaveInv(p, w, st[w])
    ensures TotalLeft(p, st) >= 0
    decreases |st|
  {
    if st != [] {
      var w := |st| - 1;
      TotalNat(p, st[..w]);
      var t := TrackAt(p, w, st[w].seg, st[w].pos);
      OutstandingNat(p, w, st[w].vm, t.vm);
      OutstandingNat(p, w, st[w].lgkm, t.lgkm);
    }
  }

  lemma {:induction false} TotalDrops(p: Prog, st: State, st': State, w: nat)
    requires |st'| == |st| && w < |st| && Left(p, w, st'[w]) < Left(p, w, st[w])
    requires forall u :: 0 <= u < |st| ==> Left(p, u, st'[u]) <= Left(p, u, st[u])
    ensures TotalLeft(p, st') < TotalLeft(p, st)
    decreases |st|
  {
    hide Left;
    var k := |st| - 1;
    if w < k {
      TotalDrops(p, st[..k], st'[..k], w);
    } else {
      TotalNotMore(p, st[..k], st'[..k]);
    }
  }

  lemma {:induction false} TotalNotMore(p: Prog, st: State, st': State)
    requires |st'| == |st|
    requires forall u :: 0 <= u < |st| ==> Left(p, u, st'[u]) <= Left(p, u, st[u])
    ensures TotalLeft(p, st') <= TotalLeft(p, st)
    decreases |st|
  {
    hide Left;
    if st != [] {
      TotalNotMore(p, st[..|st| - 1], st'[..|st| - 1]);
    }
  }

  lemma ExecShrinks(p: Prog, st: State, w: nat)
    requires Inv(p, st) && Enabled(p, st, Exec(w))
    ensures Left(p, w, Next(p, st, Exec(w))[w]) < Left(p, w, st[w])
  {
    if AtInstr(p, w, st[w]) && p.code(w, st[w].seg)[st[w].pos].Load? {
      var i := p.code(w, st[w].seg)[st[w].pos];
      LinesAppend(p, w, st[w].Q(i.queue).copies, i.copy);
    }
  }

  lemma SyncShrinks(p: Prog, w: nat, ws: Wave)
    requires Valid(p) && w < p.waves && WaveInv(p, w, ws) && AtBarrier(p, w, ws)
    ensures Left(p, w, ws.(seg := ws.seg + 1, pos := 0)) < Left(p, w, ws)
  {
    assert SegValid(p, w, ws.seg);
    assert InstrValid(p, w, ws.seg, ws.pos);
    assert EndsInBarrier(p.code(w, ws.seg));
    assert ws.seg < p.segs(w);
    assert Rest(p, w, ws.seg, ws.pos + 1) == 1 + Rest(p, w, ws.seg + 1, 0);
  }

  lemma LandShrinks(p: Prog, w: nat, ws: Wave, q: Queue)
    requires WaveInv(p, w, ws) && ws.Q(q).copies != []
    ensures Left(p, w, LandLine(p, w, ws, q)) < Left(p, w, ws)
  {
    hide LdsOk, TrackOk, Rest;
    var t := TrackAt(p, w, ws.seg, ws.pos);
    assert FifoOk(p, w, ws.Q(q), t.Q(q));
  }

  lemma StepShrinks(p: Prog, st: State, step: Step)
    requires Valid(p) && Inv(p, st) && Enabled(p, st, step) && p.waves > 0
    ensures TotalLeft(p, Next(p, st, step)) < TotalLeft(p, st)
  {
    hide Valid, WaveInv, Left, TotalLeft, Bars;
    var st' := Next(p, st, step);
    match step {
      case Exec(w) =>
        ExecShrinks(p, st, w);
        TotalDrops(p, st, st', w);
      case Land(w, q) =>
        LandShrinks(p, w, st[w], q);
        TotalDrops(p, st, st', w);
      case Sync =>
        forall u | 0 <= u < |st| ensures Left(p, u, st'[u]) < Left(p, u, st[u]) {
          assert AtBarrier(p, u, st[u]);
          SyncShrinks(p, u, st[u]);
        }
        TotalDrops(p, st, st', 0);
    }
  }

  /** MAIN. No run is longer than the work its program contains. */
  lemma {:induction false} RunsAreBounded(p: Prog, st: State, steps: seq<Step>)
    requires Valid(p) && p.waves > 0 && Inv(p, st) && CanRun(p, st, steps)
    ensures |steps| <= TotalLeft(p, st)
    decreases |steps|
  {
    TotalNat(p, st);
    if steps != [] {
      StepShrinks(p, st, steps[0]);
      StepKeeps(p, st, steps[0]);
      RunsAreBounded(p, Next(p, st, steps[0]), steps[1..]);
    }
  }

  lemma {:induction false} BarsMonotone(p: Prog, w: nat, s: nat, s': nat)
    requires s <= s'
    ensures Bars(p, w, s) <= Bars(p, w, s')
    decreases s'
  {
    if s < s' {
      BarsMonotone(p, w, s, s' - 1);
    }
  }

  /** A finished wave has passed every barrier there is, so nobody waits for it. */
  lemma NoneWaitsForDone(p: Prog, u: nat, wu: Wave, w: nat, ws: Wave)
    requires Valid(p) && u < p.waves && w < p.waves && AtBarrier(p, u, wu) && Done(p, w, ws)
    requires wu.seg <= p.segs(u) && ws.seg <= p.segs(w)
    ensures Bars(p, u, wu.seg) < Bars(p, w, ws.seg)
  {
    assert SegValid(p, u, wu.seg);
    assert InstrValid(p, u, wu.seg, wu.pos);
    assert EndsInBarrier(p.code(u, wu.seg));
    BarsMonotone(p, u, wu.seg + 1, p.segs(u));
  }

  lemma Unblocked(p: Prog, st: State, w: nat) returns (step: Step)
    requires Inv(p, st) && w < |st| && !Done(p, w, st[w]) && !AtBarrier(p, w, st[w])
    ensures Enabled(p, st, step)
  {
    step := Exec(w);
    if !Enabled(p, st, step) {
      var i := p.code(w, st[w].seg)[st[w].pos];
      step := Land(w, i.queue);
    }
  }

  /** MAIN. No barrier deadlock: as long as some wave is not done, some step can be taken. */
  lemma Progress(p: Prog, st: State, u: nat) returns (step: Step)
    requires Valid(p) && Inv(p, st) && u < |st| && !Done(p, u, st[u])
    ensures Enabled(p, st, step)
  {
    if w :| 0 <= w < |st| && !Done(p, w, st[w]) && !AtBarrier(p, w, st[w]) {
      step := Unblocked(p, st, w);
    } else {
      step := Sync;
      forall w | 0 <= w < |st| ensures AtBarrier(p, w, st[w]) {
        if Done(p, w, st[w]) {
          NoneWaitsForDone(p, u, st[u], w, st[w]);
        }
      }
    }
  }

  /** MAIN. A run that cannot be extended has brought every wave to its end. */
  lemma StuckOnlyWhenDone(p: Prog, steps: seq<Step>, u: nat)
    requires Valid(p) && CanRun(p, Init(p), steps) && u < p.waves
    requires forall step :: !Enabled(p, Final(p, Init(p), steps), step)
    ensures var st := Final(p, Init(p), steps); |st| == p.waves && Done(p, u, st[u])
  {
    InitInv(p);
    RunKeeps(p, Init(p), steps);
    if !Done(p, u, Final(p, Init(p), steps)[u]) {
      var step := Progress(p, Final(p, Init(p), steps), u);
    }
  }
}
