/** Split-K attention of one query row: every split stores a normalised partial with its maximum and
    its sum, and the combine pass weights the partials back together. */
module SplitK {
  import opened Masks
  import opened Rows
  import opened Softmax
  import D = DualwaveRow
  import F = Fp8Row
  import S = ScaledSoftmax
  import T = Tiles

  /** What a split leaves in the workspace for a row: Mrow, Lrow and its entry of O_partial. */
  datatype Partial = Partial(m: real, l: real, o: real)

  datatype Option<T> = None | Some(value: T)

  /** `p` stands for the keys `ks`: sums times f, output normalised and times vs. */
  ghost predicate StandsFor(e: real -> real, f: real, vs: real, p: Partial, ks: seq<Key>) {
    p.l == f * Mass(e, ks, p.m) && Weighted(p.l, p.o, vs, f * Acc(e, ks, p.m))
  }

  /** l times o, as far as the combine looks at it. */
  predicate Weighted(l: real, o: real, vs: real, acc: real) {
    if l > 0.0 then l * o == vs * acc else acc == 0.0
  }

  function Flatten(keys: seq<seq<Key>>): seq<Key> {
    if keys == [] then [] else Flatten(keys[..|keys| - 1]) + keys[|keys| - 1]
  }

  /** The value that store_empty_split leaves. */
  const EMPTY := Partial(-1e30, 0.0, 0.0)

  lemma EmptyStandsForNothing(e: real -> real, f: real, vs: real)
    ensures StandsFor(e, f, vs, EMPTY, [])
  {
  }

  /** A split's final state, normalised before it is stored. */
  lemma StoredStandsFor(e: real -> real, f: real, vs: real, ks: seq<Key>, m: real, l: real, o: real)
    requires IsExp2(e) && f > 0.0 && l == f * Mass(e, ks, m) && o == f * Acc(e, ks, m)
    ensures StandsFor(e, f, vs, Partial(m, l, Mul(o, Mul(SafeInverse(l), vs))), ks)
  {
    hide IsExp2, Mass, Acc, HasLive;
    MassNonneg(e, ks, m);
    if l > 0.0 {
      Undone(l, o, vs);
    } else {
      NoMass(f, Mass(e, ks, m));
    }
  }

  lemma Undone(l: real, o: real, vs: real)
    requires l > 0.0
    ensures l * (o * ((1.0 / l) * vs)) == vs * o
  {
    assert l * (1.0 / l) == 1.0;
    assert l * (o * ((1.0 / l) * vs)) == (l * (1.0 / l)) * (o * vs);
  }

  lemma NoMass(f: real, mass: real)
    requires f > 0.0 && f * mass <= 0.0
    ensures mass <= 0.0
  {
  }

  // ----------------------------------------------------------------------- the combine

  /** reduce_m_max. */
  method ReduceMMax(parts: seq<Partial>) returns (mMax: real)
    requires parts != []
    ensures forall i :: 0 <= i < |parts| ==> parts[i].m <= mMax
    ensures exists i :: 0 <= i < |parts| && parts[i].m == mMax
  {
    mMax := parts[0].m;
    for i := 1 to |parts|
      invariant forall k :: 0 <= k < i ==> parts[k].m <= mMax
      invariant exists k :: 0 <= k < i && parts[k].m == mMax
    {
      if mMax < parts[i].m { mMax := parts[i].m; }
    }
  }

  /** accumulate_splits: both sums over the splits that have mass, at the common maximum. */
  method AccumulateSplits(e: real -> real, parts: seq<Partial>, mMax: real, ghost f: real, ghost vs: real, ghost keys: seq<seq<Key>>)
      returns (acc: real, den: real)
    requires IsExp2(e) && f > 0.0 && |keys| == |parts| && forall i :: 0 <= i < |parts| ==> StandsFor(e, f, vs, parts[i], keys[i])
    ensures acc == vs * (f * Acc(e, Flatten(keys), mMax)) && den == f * Mass(e, Flatten(keys), mMax)
  {
    hide IsExp2, StandsFor, Mass, Acc, Flatten;
    acc, den := 0.0, 0.0;
    FlattenNothing(e, mMax);
    for i := 0 to |parts|
      invariant acc == vs * (f * Acc(e, Flatten(keys[..i]), mMax)) && den == f * Mass(e, Flatten(keys[..i]), mMax)
    {
      OneMoreSplit(e, f, vs, parts[i], keys[..i], keys[i], mMax);
      assert keys[..i + 1] == keys[..i] + [keys[i]];
      if parts[i].l > 0.0 {
        var w := e(parts[i].m - mMax);
        var wl := w * parts[i].l;
        den := den + wl;
        acc := acc + wl * parts[i].o;
      }
    }
    assert keys[..|parts|] == keys;
  }

  lemma FlattenNothing(e: real -> real, m: real)
    ensures Mass(e, Flatten([]), m) == 0.0 && Acc(e, Flatten([]), m) == 0.0
  {
  }

  lemma OneMoreSplit(e: real -> real, f: real, vs: real, p: Partial, keys: seq<seq<Key>>, ks: seq<Key>, mMax: real)
    requires IsExp2(e) && f > 0.0 && StandsFor(e, f, vs, p, ks)
    ensures var wl := e(p.m - mMax) * p.l;
      var acc, den := vs * (f * Acc(e, Flatten(keys), mMax)), f * Mass(e, Flatten(keys), mMax);
      && vs * (f * Acc(e, Flatten(keys + [ks]), mMax)) == acc + (if p.l > 0.0 then wl * p.o else 0.0)
      && f * Mass(e, Flatten(keys + [ks]), mMax) == den + (if p.l > 0.0 then wl else 0.0)
  {
    hide IsExp2, Mass, Acc, HasLive;
    assert Flatten(keys + [ks]) == Flatten(keys) + ks by { assert (keys + [ks])[..|keys|] == keys; }
    Concat(e, Flatten(keys), ks, mMax);
    Rebased(e, ks, p.m, mMax);
    MassNonneg(e, ks, p.m);
    MassNonneg(e, ks, mMax);
    SplitTerms(f, vs, e(p.m - mMax), p, Mass(e, ks, p.m), Acc(e, ks, p.m), Mass(e, Flatten(keys), mMax), Acc(e, Flatten(keys), mMax));
  }

  lemma SplitTerms(f: real, vs: real, w: real, p: Partial, mass: real, acc: real, massBefore: real, accBefore: real)
    requires f > 0.0 && p.l == f * mass && mass >= 0.0 && Weighted(p.l, p.o, vs, f * acc)
    ensures vs * (f * (accBefore + w * acc)) == vs * (f * accBefore) + (if p.l > 0.0 then (w * p.l) * p.o else 0.0)
    ensures f * (massBefore + w * mass) == f * massBefore + (if p.l > 0.0 then w * p.l else 0.0)
  {
    hide Weighted;
    assert f * (massBefore + w * mass) == f * massBefore + w * (f * mass);
    assert vs * (f * (accBefore + w * acc)) == vs * (f * accBefore) + w * (vs * (f * acc));
    if p.l > 0.0 {
      LoadedTerm(p, vs, f * acc);
      assert (w * p.l) * p.o == w * (p.l * p.o);
    } else {
      UnloadedTerm(p, vs, f, mass, acc);
    }
  }

  lemma LoadedTerm(p: Partial, vs: real, acc: real)
    requires p.l > 0.0 && Weighted(p.l, p.o, vs, acc)
    ensures p.l * p.o == vs * acc
  {
  }

  lemma UnloadedTerm(p: Partial, vs: real, f: real, mass: real, acc: real)
    requires !(p.l > 0.0) && f > 0.0 && p.l == f * mass && mass >= 0.0 && Weighted(p.l, p.o, vs, f * acc)
    ensures f * mass == 0.0 && vs * (f * acc) == 0.0
  {
  }

  /** MAIN. The combined output of a row is softmax attention over the keys of all its splits, times the
      value scale: normalised partials, skipped splits and the headroom factor leave no trace. */
  method CombineRow(e: real -> real, parts: seq<Partial>, ghost f: real, ghost vs: real, ghost keys: seq<seq<Key>>) returns (out: real)
    requires IsExp2(e) && f > 0.0 && parts != [] && |keys| == |parts|
    requires forall i :: 0 <= i < |parts| ==> StandsFor(e, f, vs, parts[i], keys[i])
    ensures out == vs * Direct(e, Flatten(keys))
  {
    hide IsExp2, StandsFor, Mass, Acc, Flatten, Direct, SafeInverse;
    var mMax := ReduceMMax(parts);
    var acc, den := AccumulateSplits(e, parts, mMax, f, vs, keys);
    out := acc * SafeInverse(den);
    Normalised(e, Flatten(keys), mMax, f, den, f * Acc(e, Flatten(keys), mMax));
    Regrouped(vs, f * Acc(e, Flatten(keys), mMax), SafeInverse(den));
  }

  lemma Regrouped(a: real, b: real, c: real)
    ensures (a * b) * c == a * (b * c)
  {
  }

  /** MAIN. With a sink, the combine is the only place that folds it, and the row is attention with that
      sink counted once. */
  method CombineRowWithSink(e: real -> real, parts: seq<Partial>, sink: real, ghost keys: seq<seq<Key>>) returns (out: real)
    requires IsExp2(e) && parts != [] && |keys| == |parts|
    requires forall i :: 0 <= i < |parts| ==> StandsFor(e, 1.0, 1.0, parts[i], keys[i])
    ensures out == DirectWithSink(e, Flatten(keys), sink)
  {
    hide IsExp2, StandsFor, Mass, Acc, Flatten, DirectWithSink, SafeInverse;
    var mMax := ReduceMMax(parts);
    mMax := if mMax <= sink then sink else mMax;
    var sinkW := e(sink - mMax);
    var acc, den := AccumulateSplits(e, parts, mMax, 1.0, 1.0, keys);
    den := den + sinkW;
    out := acc * SafeInverse(den);
    ExpOfZero(e, mMax);
    var mass, sum := Mass(e, Flatten(keys), mMax), Acc(e, Flatten(keys), mMax);
    TimesOne(mass, sum);
    D.SinkFolded(e, Flatten(keys), mMax, sink, mMax, den, acc);
  }

  lemma ExpOfZero(e: real -> real, m: real)
    requires IsExp2(e)
    ensures e(m - m) == 1.0
  {
  }

  lemma TimesOne(a: real, b: real)
    ensures a * 1.0 == a == 1.0 * a && b * 1.0 == b == 1.0 * (1.0 * b)
  {
  }

  // ------------------------------------------------------------- splits of a query row

  /** First tile that the splits before `s` leave over. */
  function Reached(m: int, splits: nat, s: nat): int
    requires splits > 1
  {
    if T.Nonempty(m, splits, s) then T.SplitT0(m, splits, s) else m
  }

  /** A nonempty split continues where the ones before stop; an empty one has nothing left to do. */
  lemma SplitsInOrder(m: int, splits: nat, s: nat)
    requires T.TileCount(m) && splits > 1 && s < splits
    ensures Reached(m, splits, 0) == 0 && Reached(m, splits, splits) == m
    ensures T.Nonempty(m, splits, s) ==> T.SplitT0(m, splits, s) == Reached(m, splits, s) >= 0 && T.SplitEnd(m, splits, s) == Reached(m, splits, s + 1)
    ensures !T.Nonempty(m, splits, s) ==> Reached(m, splits, s) == Reached(m, splits, s + 1) == m
  {
    hide T.Chunk, T.SplitT0;
    T.ChunkBounds(m, splits);
    T.StartIsEven(m, splits, 0);
    T.StartIsEven(m, splits, s);
    T.StartsApart(m, splits, s, s + 1);
    LastStart(m, splits);
  }

  lemma LastStart(m: int, splits: nat)
    requires T.TileCount(m) && splits > 1
    ensures T.SplitT0(m, splits, splits) >= m
  {
    hide T.Chunk;
    T.ChunkBounds(m, splits);
    assert T.Chunk(m, splits) * splits == splits * T.Chunk(m, splits);
  }

  lemma {:induction false} SpanJoin(r: Row, d: Data, a: nat, n: nat)
    ensures Span(r, d, 0, a + n) == Span(r, d, 0, a) + Span(r, d, a, n)
    decreases n
  {
    hide SeenTile;
    if n > 0 {
      SpanJoin(r, d, a, n - 1);
      assert Span(r, d, 0, a + n) == Span(r, d, 0, a + n - 1) + SeenTile(r, d, a + n - 1);
    }
  }

  /** The keys of a split's segment. */
  function SplitKeys(r: Row, d: Data, splits: nat, s: nat): seq<Key>
    requires splits > 1
  {
    var m := T.MaxTiles(r.Block());
    var t0, n := T.SplitT0(m, splits, s), T.SplitEnd(m, splits, s) - T.SplitT0(m, splits, s);
    if T.Nonempty(m, splits, s) && t0 >= 0 && n >= 0 then Span(r, d, t0, n) else []
  }

  function AllSplits(r: Row, d: Data, splits: nat, upto: nat): seq<seq<Key>>
    requires splits > 1
  {
    seq(upto, s requires 0 <= s => SplitKeys(r, d, splits, s))
  }

  lemma SplitSegment(r: Row, splits: nat, s: nat)
    requires splits > 1 && s < splits && T.Nonempty(T.MaxTiles(r.Block()), splits, s)
    ensures var m := T.MaxTiles(r.Block()); var t0, tEnd := T.SplitT0(m, splits, s), T.SplitEnd(m, splits, s);
      T.TileCount(m) && t0 >= 0 && t0 % 2 == 0 && tEnd % 2 == 0 && t0 + 4 <= tEnd <= m
  {
    hide T.Chunk, T.SplitT0, T.SplitEnd, T.MaxTiles;
    F.AtLeastFour(r);
    T.StartIsEven(T.MaxTiles(r.Block()), splits, s);
    T.SplitLength(T.MaxTiles(r.Block()), splits, s);
  }

  /** The splits up to `s`, one after the other, are the tiles reached so far. */
  lemma {:induction false} SplitsConcatenate(r: Row, d: Data, splits: nat, s: nat)
    requires splits > 1 && s <= splits
    ensures Reached(T.MaxTiles(r.Block()), splits, s) >= 0
    ensures Flatten(AllSplits(r, d, splits, s)) == Span(r, d, 0, Reached(T.MaxTiles(r.Block()), splits, s))
    decreases s
  {
    hide T.MaxTiles, T.SplitT0, T.SplitEnd, T.Nonempty, Reached, Flatten, SplitKeys, Span;
    var m := T.MaxTiles(r.Block());
    F.AtLeastFour(r);
    SplitsInOrder(m, splits, 0);
    if s == 0 {
      NothingFlattened(r, d, splits);
    } else {
      SplitsConcatenate(r, d, splits, s - 1);
      SplitsInOrder(m, splits, s - 1);
      LastSplit(r, d, splits, s);
      SplitKeysIs(r, d, splits, s - 1);
      if T.Nonempty(m, splits, s - 1) {
        SplitSegment(r, splits, s - 1);
        var t0, n := T.SplitT0(m, splits, s - 1), T.SplitEnd(m, splits, s - 1) - T.SplitT0(m, splits, s - 1);
        SpanJoin(r, d, t0, n);
      }
    }
  }

  lemma NothingFlattened(r: Row, d: Data, splits: nat)
    requires splits > 1
    ensures Flatten(AllSplits(r, d, splits, 0)) == [] == Span(r, d, 0, 0)
  {
  }

  lemma LastSplit(r: Row, d: Data, splits: nat, s: nat)
    requires splits > 1 && s > 0
    ensures Flatten(AllSplits(r, d, splits, s)) == Flatten(AllSplits(r, d, splits, s - 1)) + SplitKeys(r, d, splits, s - 1)
  {
    hide SplitKeys;
    assert AllSplits(r, d, splits, s)[..s - 1] == AllSplits(r, d, splits, s - 1);
  }

  lemma SplitKeysIs(r: Row, d: Data, splits: nat, s: nat)
    requires splits > 1 && s < splits
    ensures var m := T.MaxTiles(r.Block());
      if T.Nonempty(m, splits, s) then
        var t0, n := T.SplitT0(m, splits, s), T.SplitEnd(m, splits, s) - T.SplitT0(m, splits, s);
        t0 >= 0 && n >= 0 && SplitKeys(r, d, splits, s) == Span(r, d, t0, n)
      else SplitKeys(r, d, splits, s) == []
  {
    hide T.MaxTiles, T.SplitT0, T.SplitEnd, T.Nonempty, Span;
    if T.Nonempty(T.MaxTiles(r.Block()), splits, s) {
      SplitSegment(r, splits, s);
    }
  }

  lemma SplitsAreTheSequence(e: real -> real, r: Row, d: Data, splits: nat, m: real)
    requires IsExp2(e) && RowOk(r) && splits > 1
    ensures var ks := Flatten(AllSplits(r, d, splits, splits));
      && Mass(e, ks, m) == Mass(e, AllKeys(r, d), m) && Acc(e, ks, m) == Acc(e, AllKeys(r, d), m)
      && Direct(e, ks) == Direct(e, AllKeys(r, d))
  {
    hide IsExp2, RowOk, Mass, Acc, Direct, Flatten, AllSplits, AllKeys, Span, Covers, T.MaxTiles, T.SplitT0, T.SplitEnd, T.Nonempty, Reached;
    F.AtLeastFour(r);
    SplitsConcatenate(r, d, splits, splits);
    SplitsInOrder(T.MaxTiles(r.Block()), splits, 0);
    UnsplitCovers(r);
    CoveredSums(e, r, d, T.MaxTiles(r.Block()), m);
    CoveredDirect(e, r, d, T.MaxTiles(r.Block()));
  }

  /** The splits' kernels and empty stores: bf16, with the ballots of split s in peersBelow(s). */
  method StorePartials(e: real -> real, lazy: bool, threshold: real, floor: real, peersBelow: nat -> nat -> bool, r: Row, d: Data, splits: nat)
      returns (parts: seq<Partial>)
    requires IsExp2(e) && threshold >= 0.0 && RowOk(r) && splits > 1
    ensures |parts| == splits && forall s :: 0 <= s < splits ==> StandsFor(e, 1.0, 1.0, parts[s], SplitKeys(r, d, splits, s))
  {
    hide IsExp2, RowOk, StandsFor, Mass, Acc, Span, SplitKeys, Mul, T.MaxTiles, T.SplitT0, T.SplitEnd, T.Nonempty, SafeInverse;
    parts := [];
    var m := T.MaxTiles(r.Block());
    for s := 0 to splits
      invariant |parts| == s && forall i :: 0 <= i < s ==> StandsFor(e, 1.0, 1.0, parts[i], SplitKeys(r, d, splits, i))
    {
      SplitKeysIs(r, d, splits, s);
      if T.Nonempty(m, splits, s) {
        SplitSegment(r, splits, s);
        var t0, tEnd := T.SplitT0(m, splits, s), T.SplitEnd(m, splits, s);
        var o, mRow, l, _ := D.SegmentRow(e, lazy, threshold, floor, peersBelow(s), r, d, t0, tEnd - t0);
        StoredStandsFor(e, 1.0, 1.0, Span(r, d, t0, tEnd - t0), mRow, l, o);
        var p := Partial(mRow, l, Mul(o, Mul(SafeInverse(l), 1.0)));
        parts := parts + [p];
      } else {
        EmptyStandsForNothing(e, 1.0, 1.0);
        parts := parts + [EMPTY];
      }
    }
  }

  /** MAIN. A split row, from its segments to the combine, is softmax attention over exactly the keys the row
      may see: what the unsplit row computes. */
  method SplitRow(e: real -> real, lazy: bool, threshold: real, floor: real, peersBelow: nat -> nat -> bool, r: Row, d: Data, splits: nat)
      returns (out: real)
    requires IsExp2(e) && threshold >= 0.0 && RowOk(r) && splits > 1
    ensures out == Direct(e, AllKeys(r, d))
  {
    hide IsExp2, RowOk, StandsFor, Flatten, SplitKeys, Direct;
    var parts := StorePartials(e, lazy, threshold, floor, peersBelow, r, d, splits);
    out := CombineRow(e, parts, 1.0, 1.0, AllSplits(r, d, splits, splits));
    SplitsAreTheSequence(e, r, d, splits, 0.0);
  }

  /** MAIN. The same with a sink. */
  method SplitRowWithSink(e: real -> real, lazy: bool, threshold: real, floor: real, peersBelow: nat -> nat -> bool, r: Row, d: Data,
                          splits: nat, sink: real) returns (out: real)
    requires IsExp2(e) && threshold >= 0.0 && RowOk(r) && splits > 1
    ensures out == DirectWithSink(e, AllKeys(r, d), sink)
  {
    hide IsExp2, RowOk, StandsFor, Flatten, SplitKeys, Mass, Acc;
    var parts := StorePartials(e, lazy, threshold, floor, peersBelow, r, d, splits);
    out := CombineRowWithSink(e, parts, sink, AllSplits(r, d, splits, splits));
    SplitsAreTheSequence(e, r, d, splits, 0.0);
  }

  lemma StoredStandsFor8(g: F.Job, ks: seq<Key>, st: F.State)
    requires IsExp2(g.e) && st.m.Fin? && F.Online8(g.e, g.c, ks, st)
    ensures StandsFor(g.e, g.e(F.Bias(g.c)), g.c.valueScale, Partial(Mul(g.c.scale, st.m.s), st.l, F.Output(g.c, st)), ks)
  {
    hide IsExp2, StandsFor, Mass, Acc, F.Bias, SafeInverse;
    ExpPositive(g.e, F.Bias(g.c));
    assert S.Sums(g.e, g.e(F.Bias(g.c)), ks, Mul(g.c.scale, st.m.s), st.l, st.o);
    StoredStandsFor(g.e, g.e(F.Bias(g.c)), g.c.valueScale, ks, Mul(g.c.scale, st.m.s), st.l, st.o);
  }

  /** FP8: the stored maximum is scaled, the partial output carries the value scale. */
  method StorePartials8(g: F.Job, peersBelow: nat -> int -> bool, splits: nat) returns (parts: seq<Partial>)
    requires IsExp2(g.e) && RowOk(g.r) && splits > 1
    ensures |parts| == splits
    ensures forall s :: 0 <= s < splits ==>
      StandsFor(g.e, g.e(F.Bias(g.c)), g.c.valueScale, parts[s], SplitKeys(g.r, F.Scaled(g.c, g.d), splits, s))
  {
    hide IsExp2, RowOk, StandsFor, Mass, Acc, Span, SplitKeys, Mul, T.MaxTiles, T.SplitT0, T.SplitEnd, T.Nonempty, SafeInverse, F.Bias, F.Scaled, F.Online8;
    parts := [];
    var m := T.MaxTiles(g.r.Block());
    ghost var f, vs, d := g.e(F.Bias(g.c)), g.c.valueScale, F.Scaled(g.c, g.d);
    ExpPositive(g.e, F.Bias(g.c));
    for s := 0 to splits
      invariant |parts| == s && forall i :: 0 <= i < s ==> StandsFor(g.e, f, vs, parts[i], SplitKeys(g.r, d, splits, i))
    {
      SplitKeysIs(g.r, d, splits, s);
      if T.Nonempty(m, splits, s) {
        SplitSegment(g.r, splits, s);
        var t0, tEnd := T.SplitT0(m, splits, s), T.SplitEnd(m, splits, s);
        var st := F.DenseSegment(g.(peersBelow := peersBelow(s)), t0, tEnd);
        StoredStandsFor8(g, Span(g.r, d, t0, tEnd - t0), st);
        parts := parts + [Partial(Mul(g.c.scale, st.m.s), st.l, F.Output(g.c, st))];
      } else {
        EmptyStandsForNothing(g.e, f, vs);
        parts := parts + [EMPTY];
      }
    }
  }

  /** MAIN. The FP8 split row: headroom factor and maxima in other units cancel in the combine. */
  method SplitRow8(g: F.Job, peersBelow: nat -> int -> bool, splits: nat) returns (out: real)
    requires IsExp2(g.e) && RowOk(g.r) && splits > 1
    ensures out == F.Attention(g)
  {
    hide IsExp2, RowOk, StandsFor, Flatten, SplitKeys, Direct, F.Bias, F.Scaled;
    var parts := StorePartials8(g, peersBelow, splits);
    ExpPositive(g.e, F.Bias(g.c));
    out := CombineRow(g.e, parts, g.e(F.Bias(g.c)), g.c.valueScale, AllSplits(g.r, F.Scaled(g.c, g.d), splits, splits));
    SplitsAreTheSequence(g.e, g.r, F.Scaled(g.c, g.d), splits, 0.0);
  }
}
