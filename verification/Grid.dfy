/** From workgroup ids to work: head-first swizzle, batch interleaving, GQA head order, KV splits and
    longest-first query blocks. Together they are a bijection. */
module Grid {
  import opened Arith
  import T = Tiles

  const NUM_XCD: nat := 8

  /** `qBlocks` is the grid's query-block count; `group` the batch-interleave group. */
  datatype Launch = Launch(heads: nat, kvHeads: nat, batches: nat, splits: nat, qBlocks: nat,
                           causal: bool, varlen: bool, xcdSwizzle: bool, group: nat, paired: bool)

  datatype Id = Id(x: nat, y: nat, z: nat)

  datatype Work = Work(batch: nat, split: nat, qHead: nat, kvHead: nat, qBlock: nat)

  function Gqa(l: Launch): nat
    requires l.kvHeads > 0
  {
    l.heads / l.kvHeads
  }

  predicate Swizzled(l: Launch) { l.xcdSwizzle && l.splits == 1 && !l.causal && l.heads % NUM_XCD == 0 }
  predicate Interleaved(l: Launch) { !Swizzled(l) && l.group > 1 && l.splits == 1 }

  /** What the host guarantees: heads come in whole GQA groups, and an interleave group divides the
      batch and is used for unsplit causal launches only. */
  predicate LaunchOk(l: Launch) {
    && l.kvHeads > 0 && l.heads > 0 && l.heads == Gqa(l) * l.kvHeads && l.splits > 0
    && l.group > 0 && (l.group > 1 ==> l.causal && l.splits == 1 && l.batches % l.group == 0)
  }

  predicate Launched(l: Launch, id: Id)
    requires LaunchOk(l)
  {
    id.x < l.heads * l.group && id.y < l.qBlocks && id.z < if l.splits > 1 then l.batches * l.splits else l.batches / l.group
  }

  // Two-digit numbers.
  function Join(hi: nat, lo: nat, n: nat): nat { hi * n + lo }
  function Hi(a: nat, n: nat): nat
    requires n > 0
  {
    a / n
  }
  function Lo(a: nat, n: nat): nat
    requires n > 0
  {
    a % n
  }

  // ------------------------------------------------------- first step: which (h, block, z)

  datatype Slot = Slot(h: nat, block: nat, batch: nat, split: nat)

  predicate InSlots(l: Launch, s: Slot) { s.h < l.heads && s.block < l.qBlocks && s.batch < l.batches && s.split < l.splits }

  function ToSlot(l: Launch, id: Id): Slot
    requires LaunchOk(l) && Launched(l, id)
  {
    if Swizzled(l) then
      var linear := Join(id.y, id.x, l.heads);
      Slot(Hi(linear, l.qBlocks), Lo(linear, l.qBlocks), id.z, 0)
    else if Interleaved(l) then
      if l.paired then Slot(Hi(id.x, l.group), id.y, Join(id.z, Lo(id.x, l.group), l.group), 0)
      else Slot(Lo(id.x, l.heads), id.y, Join(id.z, Hi(id.x, l.heads), l.group), 0)
    else if l.splits > 1 then Slot(id.x, id.y, Hi(id.z, l.splits), Lo(id.z, l.splits))
    else Slot(id.x, id.y, id.z, 0)
  }

  function FromSlot(l: Launch, s: Slot): Id
    requires LaunchOk(l) && InSlots(l, s)
  {
    if Swizzled(l) then
      var linear := Join(s.h, s.block, l.qBlocks);
      Id(Lo(linear, l.heads), Hi(linear, l.heads), s.batch)
    else if Interleaved(l) then
      if l.paired then Id(Join(s.h, Lo(s.batch, l.group), l.group), s.block, Hi(s.batch, l.group))
      else Id(Join(Lo(s.batch, l.group), s.h, l.heads), s.block, Hi(s.batch, l.group))
    else if l.splits > 1 then Id(s.h, s.block, Join(s.batch, s.split, l.splits))
    else Id(s.h, s.block, s.batch)
  }

  /** Two digits: hi < m, lo < n. */
  lemma Digits(hi: nat, lo: nat, m: nat, n: nat)
    requires hi < m && lo < n
    ensures 0 <= hi * n + lo < m * n && (hi * n + lo) / n == hi && (hi * n + lo) % n == lo
  {
    MulLe(hi + 1, m, n);
    assert (hi + 1) * n == hi * n + n;
    DivIs(hi * n + lo, n, hi, lo);
  }

  lemma Number(a: nat, m: nat, n: nat)
    requires a < m * n && n > 0
    ensures 0 <= a / n < m && 0 <= a % n < n && (a / n) * n + a % n == a
  {
    DivBelow(a, n, m);
    assert a == n * (a / n) + a % n;
  }

  lemma WholeGroups(batches: nat, group: nat)
    requires group > 0 && batches % group == 0
    ensures (batches / group) * group == batches
  {
    assert batches == group * (batches / group) + batches % group;
  }

  lemma Commute(a: nat, b: nat)
    ensures a * b == b * a
  {
  }

  lemma NonEmpty(l: Launch, id: Id)
    requires LaunchOk(l) && Launched(l, id)
    ensures l.group == 1 ==> id.x < l.heads
    ensures l.splits == 1 && l.group == 1 ==> id.z < l.batches
  {
    if l.group == 1 {
      assert l.heads * 1 == l.heads;
      assert l.batches / 1 == l.batches;
    }
  }

  lemma SwizzleForth(l: Launch, id: Id)
    requires LaunchOk(l) && Launched(l, id) && Swizzled(l)
    ensures InSlots(l, ToSlot(l, id)) && FromSlot(l, ToSlot(l, id)) == id
  {
    NonEmpty(l, id);
    var linear := id.x + id.y * l.heads;
    Digits(id.y, id.x, l.qBlocks, l.heads);
    Commute(l.qBlocks, l.heads);
    Number(linear, l.heads, l.qBlocks);
  }

  lemma SwizzleBack(l: Launch, s: Slot)
    requires LaunchOk(l) && InSlots(l, s) && Swizzled(l)
    ensures Launched(l, FromSlot(l, s)) && ToSlot(l, FromSlot(l, s)) == s
  {
    var linear := s.h * l.qBlocks + s.block;
    Digits(s.h, s.block, l.heads, l.qBlocks);
    Commute(l.qBlocks, l.heads);
    Number(linear, l.qBlocks, l.heads);
    assert l.heads * 1 == l.heads && l.batches / 1 == l.batches;
  }

  lemma InterleaveForth(l: Launch, id: Id)
    requires LaunchOk(l) && Launched(l, id) && Interleaved(l)
    ensures InSlots(l, ToSlot(l, id)) && FromSlot(l, ToSlot(l, id)) == id
  {
    WholeGroups(l.batches, l.group);
    if l.paired {
      Number(id.x, l.heads, l.group);
      Digits(id.z, id.x % l.group, l.batches / l.group, l.group);
    } else {
      Commute(l.heads, l.group);
      Number(id.x, l.group, l.heads);
      Digits(id.z, id.x / l.heads, l.batches / l.group, l.group);
    }
  }

  lemma InterleaveBack(l: Launch, s: Slot)
    requires LaunchOk(l) && InSlots(l, s) && Interleaved(l)
    ensures Launched(l, FromSlot(l, s)) && ToSlot(l, FromSlot(l, s)) == s
  {
    WholeGroups(l.batches, l.group);
    Number(s.batch, l.batches / l.group, l.group);
    if l.paired {
      Digits(s.h, s.batch % l.group, l.heads, l.group);
    } else {
      Commute(l.heads, l.group);
      Digits(s.batch % l.group, s.h, l.group, l.heads);
    }
  }

  lemma PlainForth(l: Launch, id: Id)
    requires LaunchOk(l) && Launched(l, id) && !Swizzled(l) && !Interleaved(l)
    ensures InSlots(l, ToSlot(l, id)) && FromSlot(l, ToSlot(l, id)) == id
  {
    NonEmpty(l, id);
    if l.splits > 1 { Number(id.z, l.batches, l.splits); }
  }

  lemma PlainBack(l: Launch, s: Slot)
    requires LaunchOk(l) && InSlots(l, s) && !Swizzled(l) && !Interleaved(l)
    ensures Launched(l, FromSlot(l, s)) && ToSlot(l, FromSlot(l, s)) == s
  {
    assert l.heads * 1 == l.heads && l.batches / 1 == l.batches;
    if l.splits > 1 { Digits(s.batch, s.split, l.batches, l.splits); }
  }

  lemma SlotForth(l: Launch, id: Id)
    requires LaunchOk(l) && Launched(l, id)
    ensures InSlots(l, ToSlot(l, id)) && FromSlot(l, ToSlot(l, id)) == id
  {
    hide *;
    if Swizzled(l) { SwizzleForth(l, id); } else if Interleaved(l) { InterleaveForth(l, id); } else { PlainForth(l, id); }
  }

  lemma SlotBack(l: Launch, s: Slot)
    requires LaunchOk(l) && InSlots(l, s)
    ensures Launched(l, FromSlot(l, s)) && ToSlot(l, FromSlot(l, s)) == s
  {
    hide *;
    if Swizzled(l) { SwizzleBack(l, s); } else if Interleaved(l) { InterleaveBack(l, s); } else { PlainBack(l, s); }
  }

  /** MAIN. Which work goes where, in equations: the swizzle keeps the linear id but counts head by head, so that one head's
      blocks are consecutive; interleaving puts `group` batches side by side in x, batch-minor if pages are paired
      and head-minor otherwise; splits are the minor digit of z. */
  lemma IdEquations(l: Launch, id: Id)
    requires LaunchOk(l) && Launched(l, id)
    ensures var s := ToSlot(l, id);
      if Swizzled(l) then s.h * l.qBlocks + s.block == id.y * l.heads + id.x && s.batch == id.z
      else
        && s.block == id.y
        && (Interleaved(l) ==> s.batch / l.group == id.z && id.x == if l.paired then s.h * l.group + s.batch % l.group else s.batch % l.group * l.heads + s.h)
        && (!Interleaved(l) ==> s.h == id.x && id.z == if l.splits > 1 then s.batch * l.splits + s.split else s.batch)
  {
    hide ToSlot, Launched, LaunchOk;
    SlotForth(l, id);
    if Swizzled(l) { SwizzleEquation(l, id); } else { FromSlotIs(l, ToSlot(l, id)); }
  }

  lemma FromSlotIs(l: Launch, s: Slot)
    requires LaunchOk(l) && InSlots(l, s) && !Swizzled(l)
    ensures var id := FromSlot(l, s);
      && s.block == id.y
      && (Interleaved(l) ==> s.batch / l.group == id.z && id.x == if l.paired then s.h * l.group + s.batch % l.group else s.batch % l.group * l.heads + s.h)
      && (!Interleaved(l) ==> s.h == id.x && id.z == if l.splits > 1 then s.batch * l.splits + s.split else s.batch)
  {
  }

  lemma SwizzleEquation(l: Launch, id: Id)
    requires LaunchOk(l) && Launched(l, id) && Swizzled(l)
    ensures var s := ToSlot(l, id); s.h * l.qBlocks + s.block == id.y * l.heads + id.x && s.batch == id.z
  {
    NonEmpty(l, id);
    Digits(id.y, id.x, l.qBlocks, l.heads);
    Commute(l.qBlocks, l.heads);
    Number(id.y * l.heads + id.x, l.heads, l.qBlocks);
  }

  // ----------------------------------------------------- second step: heads and block order

  function QHead(l: Launch, h: nat): nat
    requires LaunchOk(l)
  {
    Join(Lo(h, l.kvHeads), Hi(h, l.kvHeads), Gqa(l))
  }

  function HOf(l: Launch, qHead: nat): nat
    requires LaunchOk(l) && Gqa(l) > 0
  {
    Join(Lo(qHead, Gqa(l)), Hi(qHead, Gqa(l)), l.kvHeads)
  }

  lemma GqaPositive(l: Launch)
    requires LaunchOk(l)
    ensures Gqa(l) > 0
  {
  }

  /** The KV head of a workgroup is the one its query head shares. */
  lemma HeadsForth(l: Launch, h: nat)
    requires LaunchOk(l) && h < l.heads
    ensures Gqa(l) > 0 && QHead(l, h) < l.heads && QHead(l, h) / Gqa(l) == h % l.kvHeads && HOf(l, QHead(l, h)) == h
  {
    GqaPositive(l);
    Number(h, Gqa(l), l.kvHeads);
    Digits(h % l.kvHeads, h / l.kvHeads, l.kvHeads, Gqa(l));
    Commute(l.kvHeads, Gqa(l));
  }

  lemma HeadsBack(l: Launch, q: nat)
    requires LaunchOk(l) && q < l.heads
    ensures Gqa(l) > 0 && HOf(l, q) < l.heads && HOf(l, q) % l.kvHeads == q / Gqa(l) && QHead(l, HOf(l, q)) == q
  {
    GqaPositive(l);
    Commute(l.kvHeads, Gqa(l));
    Number(q, l.kvHeads, Gqa(l));
    Digits(q % Gqa(l), q / Gqa(l), Gqa(l), l.kvHeads);
  }

  /** Longest-first: all blocks reversed, or with varlen only the blocks the sequence has. */
  function Reversed(l: Launch, active: nat, block: nat): nat {
    if !l.causal then block
    else if !l.varlen then if block < l.qBlocks then l.qBlocks - 1 - block else block
    else if block < active then active - 1 - block else block
  }

  // ---------------------------------------------------------------------- both together

  predicate InWork(l: Launch, w: Work)
    requires LaunchOk(l)
  {
    && w.batch < l.batches && w.split < l.splits && w.qHead < l.heads && w.qBlock < l.qBlocks
    && Gqa(l) > 0 && w.kvHead == w.qHead / Gqa(l)
  }

  /** `active(b)` is the number of query blocks of batch b's sequence. */
  function Map(l: Launch, active: nat -> nat, id: Id): Work
    requires LaunchOk(l) && Launched(l, id)
  {
    var s := ToSlot(l, id);
    Work(s.batch, s.split, QHead(l, s.h), Lo(s.h, l.kvHeads), Reversed(l, active(s.batch), s.block))
  }

  function Unmap(l: Launch, active: nat -> nat, w: Work): Id
    requires LaunchOk(l) && InWork(l, w)
    requires InSlots(l, Slot(HOf(l, w.qHead), Reversed(l, active(w.batch), w.qBlock), w.batch, w.split))
  {
    FromSlot(l, Slot(HOf(l, w.qHead), Reversed(l, active(w.batch), w.qBlock), w.batch, w.split))
  }

  lemma ReversedTwice(l: Launch, active: nat, block: nat)
    requires block < l.qBlocks && active <= l.qBlocks
    ensures Reversed(l, active, block) < l.qBlocks && Reversed(l, active, Reversed(l, active, block)) == block
    ensures l.causal && l.varlen ==> (Reversed(l, active, block) < active <==> block < active)
  {
  }

  /** MAIN. Every launched workgroup has one piece of work, with the KV head that its query head shares, and no
      two have the same. */
  lemma EveryWorkgroupWorks(l: Launch, active: nat -> nat, id: Id)
    requires LaunchOk(l) && Launched(l, id) && forall b :: active(b) <= l.qBlocks
    ensures var w := Map(l, active, id);
      InWork(l, w) && InSlots(l, Slot(HOf(l, w.qHead), Reversed(l, active(w.batch), w.qBlock), w.batch, w.split)) && Unmap(l, active, w) == id
  {
    hide LaunchOk, Launched, ToSlot, FromSlot, Reversed, QHead, HOf, Gqa;
    SlotForth(l, id);
    var s := ToSlot(l, id);
    HeadsForth(l, s.h);
    ReversedTwice(l, active(s.batch), s.block);
  }

  /** MAIN. Every piece of work is done by a launched workgroup. */
  lemma AllWorkIsDone(l: Launch, active: nat -> nat, w: Work)
    requires LaunchOk(l) && InWork(l, w) && forall b :: active(b) <= l.qBlocks
    ensures InSlots(l, Slot(HOf(l, w.qHead), Reversed(l, active(w.batch), w.qBlock), w.batch, w.split))
    ensures Launched(l, Unmap(l, active, w)) && Map(l, active, Unmap(l, active, w)) == w
  {
    hide LaunchOk, Launched, ToSlot, FromSlot, Reversed, QHead, HOf, Gqa;
    HeadsBack(l, w.qHead);
    ReversedTwice(l, active(w.batch), w.qBlock);
    SlotBack(l, Slot(HOf(l, w.qHead), Reversed(l, active(w.batch), w.qBlock), w.batch, w.split));
  }

  /** MAIN. Without the host's guarantee that the group divides the batch, the interleaved grid leaves batches out. */
  lemma GroupMustDivide(batches: nat, group: nat)
    requires group > 0
    ensures (forall b :: 0 <= b < batches ==> b / group < batches / group) <==> batches % group == 0
  {
    if batches % group == 0 {
      WholeGroups(batches, group);
      forall b | 0 <= b < batches ensures b / group < batches / group {
        DivBelow(b, group, batches / group);
      }
    } else {
      var q, b := batches / group, batches - 1;
      assert batches == group * q + batches % group && group * q == q * group;
      DivIs(b, group, q, batches % group - 1);
    }
  }

  /** MAIN. Causal blocks are issued longest first: along the grid axis the tile count never grows. */
  lemma LongestFirst(l: Launch, active: nat, rows: nat, seqlenKv: nat, delta: int, y: nat, y': nat)
    requires l.causal && y < y' < (if l.varlen then active else l.qBlocks)
    ensures var a, b := Reversed(l, active, y) * rows, Reversed(l, active, y') * rows;
      a >= 0 && b >= 0 && T.MaxTiles(T.Block(true, b, rows, seqlenKv, delta)) <= T.MaxTiles(T.Block(true, a, rows, seqlenKv, delta))
  {
    hide T.MaxTiles;
    var a, b := Reversed(l, active, y), Reversed(l, active, y');
    assert b <= a;
    MulLe(b, a, rows);
    MulLe(0, b, rows);
    LaterIsLonger(rows, seqlenKv, delta, b * rows, a * rows);
  }

  lemma LaterIsLonger(rows: nat, seqlenKv: nat, delta: int, q: nat, q': nat)
    requires q <= q'
    ensures T.MaxTiles(T.Block(true, q, rows, seqlenKv, delta)) <= T.MaxTiles(T.Block(true, q', rows, seqlenKv, delta))
  {
  }

  // ------------------------------------------------------------------- the host's groups

  function DenseGroup(batch: nat, causal: bool, cross: bool, splits: nat): (g: nat)
    ensures g > 0 && batch % g == 0 && (g > 1 ==> causal && splits <= 1)
  {
    if !causal || cross || splits > 1 then 1 else if batch % 2 == 0 then 2 else 1
  }

  function PagedGroup(batch: nat, headDim: nat, headDimV: nat, paired: bool): (g: nat)
    ensures g > 0 && batch % g == 0
  {
    if paired then
      if headDim == 128 && headDimV == 128 && (batch == 2 || batch == 3 || batch == 5) then batch
      else if headDim == 192 && headDimV == 128 && batch == 2 then 2
      else 1
    else if headDim != 192 || batch <= 1 then 1
    else if headDimV == 192 && batch > 16 then 1
    else if batch % 8 == 0 then 8
    else if batch % 4 == 0 then 4
    else if batch % 2 == 0 then 2
    else 1
  }

  /** MAIN. Launches with the groups that the host chooses are in order: dense ones of any kind, and the
      causal, unsplit paged ones that are all it accepts. */
  lemma ChosenGroupsAreOk(l: Launch, cross: bool, headDim: nat, headDimV: nat)
    requires l.kvHeads > 0 && l.heads > 0 && l.heads == Gqa(l) * l.kvHeads && l.splits > 0
    requires l.group == DenseGroup(l.batches, l.causal, cross, l.splits)
      || (l.causal && l.splits == 1 && l.group == PagedGroup(l.batches, headDim, headDimV, l.paired))
    ensures LaunchOk(l)
  {
    hide DenseGroup, PagedGroup;
  }

  // ---------------------------------------------------------------- the kernel's context

  /** The fields that a workgroup sets step by step. */
  class GridContext {
    const l: Launch
    const id: Id
    var hIdx: nat
    var qBlockIdx: nat
    var batchIdx: nat
    var splitIdx: nat
    var qHeadIdx: nat
    var kvHeadIdx: nat

    constructor (l: Launch, id: Id)
      ensures this.l == l && this.id == id
    {
      this.l, this.id := l, id;
    }

    /** _init_dualwave_thread_mapping. */
    method InitThreadMapping()
      requires LaunchOk(l) && Launched(l, id)
      modifies this
      ensures Slot(hIdx, qBlockIdx, batchIdx, splitIdx) == ToSlot(l, id)
      ensures qHeadIdx == QHead(l, hIdx) && kvHeadIdx == Lo(hIdx, l.kvHeads)
    {
      hide Join, Hi, Lo;
      splitIdx := 0;
      if l.xcdSwizzle && l.splits == 1 && !l.causal && l.heads % NUM_XCD == 0 {
        NonEmpty(l, id);
        var linear := Join(id.y, id.x, l.heads);
        hIdx, qBlockIdx := Hi(linear, l.qBlocks), Lo(linear, l.qBlocks);
      } else if l.group > 1 && l.splits == 1 {
        if l.paired {
          hIdx := Hi(id.x, l.group);
          batchIdx := Join(id.z, Lo(id.x, l.group), l.group);
        } else {
          hIdx := Lo(id.x, l.heads);
          batchIdx := Join(id.z, Hi(id.x, l.heads), l.group);
        }
        qBlockIdx := id.y;
      } else {
        hIdx, qBlockIdx := id.x, id.y;
      }
      if l.splits > 1 {
        batchIdx, splitIdx := Hi(id.z, l.splits), Lo(id.z, l.splits);
      } else if l.group <= 1 {
        batchIdx := id.z;
      }
      var hKvIdx, groupId := Lo(hIdx, l.kvHeads), Hi(hIdx, l.kvHeads);
      qHeadIdx, kvHeadIdx := Join(hKvIdx, groupId, Gqa(l)), hKvIdx;
    }

    /** init_causal_lpt_order. */
    method InitCausalLptOrder()
      requires l.causal && !l.varlen && qBlockIdx < l.qBlocks
      modifies this`qBlockIdx
      ensures qBlockIdx == Reversed(l, 0, old(qBlockIdx))
    {
      qBlockIdx := l.qBlocks - 1 - qBlockIdx;
    }

    /** init_varlen_causal_lpt_order. */
    method InitVarlenCausalLptOrder(numQBlocks: nat)
      requires l.causal && l.varlen
      modifies this`qBlockIdx
      ensures qBlockIdx == Reversed(l, numQBlocks, old(qBlockIdx))
    {
      if qBlockIdx < numQBlocks { qBlockIdx := numQBlocks - 1 - qBlockIdx; }
    }

    /** All of it, in the kernels' order: the context ends up with the work of its workgroup. */
    method Init(active: nat -> nat)
      requires LaunchOk(l) && Launched(l, id)
      modifies this
      ensures Work(batchIdx, splitIdx, qHeadIdx, kvHeadIdx, qBlockIdx) == Map(l, active, id)
    {
      SlotForth(l, id);
      InitThreadMapping();
      if l.causal && !l.varlen { InitCausalLptOrder(); }
      if l.causal && l.varlen { InitVarlenCausalLptOrder(active(batchIdx)); }
    }
  }
}
