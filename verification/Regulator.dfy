/**
 Setting up the queue regulator (daredevil/block/blk-blex.c:695-934) and its round-robin choice
 (daredevil/block/blk-blex.c:288-323). The groups divide the completion queues by priority.
*/
module Regulators {
  import opened Options
  import opened Partition
  import opened Merits
  import opened PrioArrays
  import opened RoundRobins

  /** BLK_BLEX_PRIO_LEVEL. */
  const LEVELS: nat := 2

  // ----- How the groups divide the queues -----

  /** Where block k begins, or the end of all queues. */
  function Bound(k: nat, max: nat, nr: nat): nat
    requires Sane(max, nr)
  {
    if k < nr then KthCqid(k, max, nr) else max + 1
  }

  /** The index of a group's first completion queue and, for prio == LEVELS, the end. */
  function FirstOf(prio: nat, nr: nat): nat {
    if prio < LEVELS then prio * (nr / LEVELS) else nr
  }

  function PrioOf(q: nat, max: nat, nr: nat): nat
    requires Sane(max, nr) && q >= 1
  {
    if CqidToIndex(GetCqid(q, max, nr), max, nr) < nr / LEVELS then 0 else 1
  }

  lemma NextBound(k: nat, max: nat, nr: nat)
    requires Sane(max, nr) && k < nr
    ensures Bound(k + 1, max, nr) == Bound(k, max, nr) + CqNrNsqs(KthCqid(k, max, nr), max, nr)
    ensures Bound(k, max, nr) < Bound(k + 1, max, nr) <= max + 1
  {
    BlocksFill(max, nr);
    CqidBounds(k, max, nr);
    if k + 1 < nr { CqidBounds(k + 1, max, nr); }
  }

  lemma {:induction false} BoundsGrow(j: nat, k: nat, max: nat, nr: nat)
    requires Sane(max, nr) && j <= k <= nr
    ensures Bound(j, max, nr) + (k - j) <= Bound(k, max, nr)
    decreases k - j
  {
    if j < k {
      NextBound(j, max, nr);
      BoundsGrow(j + 1, k, max, nr);
    }
  }

  /** The groups split the queues by priority: group 0 holds an initial interval, group 1 the rest, each
      at least one completion queue, and a queue is in the group of its completion queue. */
  lemma GroupsSplit(q: nat, prio: nat, max: nat, nr: nat)
    requires Sane(max, nr) && 2 <= nr && 1 <= q <= max && prio < LEVELS
    ensures Bound(FirstOf(0, nr), max, nr) == 1 && Bound(FirstOf(LEVELS, nr), max, nr) == max + 1
    ensures FirstOf(prio, nr) < FirstOf(prio + 1, nr)
    ensures PrioOf(q, max, nr) == prio <==>
      Bound(FirstOf(prio, nr), max, nr) <= q < Bound(FirstOf(prio + 1, nr), max, nr)
    ensures PrioOf(q, max, nr) == PrioOf(GetCqid(q, max, nr), max, nr)
  {
    BlocksFill(max, nr);
    Halves(nr);
    QueueInItsBlock(q, max, nr);
    BlockBounds(q, CqidToIndex(GetCqid(q, max, nr), max, nr), nr / LEVELS, max, nr);
  }

  lemma Halves(nr: nat)
    requires 2 <= nr
    ensures 0 == FirstOf(0, nr) < FirstOf(1, nr) == nr / LEVELS < FirstOf(2, nr) == nr
  {
  }

  /** A queue of block k lies before the bound of block h exactly if k does. */
  lemma BlockBounds(q: nat, k: nat, h: nat, max: nat, nr: nat)
    requires Sane(max, nr) && 1 <= q <= max && h <= nr && k < nr
    requires KthCqid(k, max, nr) <= q < KthCqid(k, max, nr) + CqNrNsqs(KthCqid(k, max, nr), max, nr)
    ensures k < h <==> q < Bound(h, max, nr)
  {
    NextBound(k, max, nr);
    if k < h { BoundsGrow(k + 1, h, max, nr); } else { BoundsGrow(h, k, max, nr); }
  }

  // ----- The regulator -----

  datatype Group = Group(prio: nat, nrAttachNsqs: nat, nrNcqs: nat, ncqStart: nat,
                         rrNcqOffset: int, rrNsqOffset: int, prioArr: Option<PrioArray>)

  /** An exposed completion queue; prioArr is absent if it has one submission queue only. */
  datatype Encq = Encq(cqid: nat, nrAttachedNsqs: nat, rrNsqOffset: int, prioArr: Option<PrioArray>)

  datatype Enq = Enq(group: nat, prio: nat, nqid: nat, cqid: nat, encq: Option<Encq>)

  /** n ids: the completion queues from index first on. */
  function Cqids(first: nat, n: nat, max: nat, nr: nat): (s: seq<nat>)
    requires Sane(max, nr)
    ensures |s| == n && forall i :: 0 <= i < n ==> s[i] == KthCqid(first + i, max, nr)
  {
    seq<nat>(n, i requires 0 <= i < n => KthCqid(first + i, max, nr))
  }

  /** n consecutive ids. */
  function Consecutive(first: nat, n: nat): (s: seq<nat>)
    ensures |s| == n && forall i :: 0 <= i < n ==> s[i] == first + i
  {
    seq<nat>(n, i requires 0 <= i < n => first + i)
  }

  predicate HeapIs(pa: PrioArray, ids: seq<nat>, mru: int)
    reads pa, pa.binHeap
  {
    pa.count == |ids| > 0 && pa.count <= pa.binHeap.Length && pa.Heap() == ids && pa.top == ids[0]
    && pa.mru == mru && !pa.locked
  }

  predicate GroupShape(g: Group, prio: nat, max: nat, nr: nat)
    requires Sane(max, nr)
  {
    var (first, next) := (FirstOf(prio, nr), FirstOf(prio + 1, nr));
    && first < next <= nr && g.prio == prio && g.nrNcqs == next - first
    && g.ncqStart == KthCqid(first, max, nr)
    && g.ncqStart + g.nrAttachNsqs == Bound(next, max, nr)
  }

  predicate EnqShape(e: Enq, q: nat, max: nat, nr: nat)
    requires Sane(max, nr) && q >= 1
  {
    && e.nqid == q && e.cqid == GetCqid(q, max, nr) && e.group == e.prio == PrioOf(q, max, nr)
    && (e.encq.Some? <==> HasCq(q, max, nr))
    && (e.encq.Some? ==>
         && e.encq.value.cqid == q
         && e.encq.value.nrAttachedNsqs == CqNrNsqs(q, max, nr)
         && (e.encq.value.prioArr.Some? <==> CqNrNsqs(q, max, nr) > 1))
  }

  /** The first blocks up to hi, from lo on, carry the number of their group. */
  predicate Labelled(es: seq<Enq>, lo: nat, hi: nat, group: nat, max: nat, nr: nat)
    requires Sane(max, nr) && |es| == max && hi <= nr
  {
    forall k {:trigger KthCqid(k, max, nr)} :: lo <= k < hi ==>
      1 <= KthCqid(k, max, nr) <= max && es[KthCqid(k, max, nr) - 1].group == group
  }

  lemma LabelNext(es: seq<Enq>, lo: nat, hi: nat, group: nat, max: nat, nr: nat)
    requires Sane(max, nr) && |es| == max && lo <= hi < nr && Labelled(es, lo, hi, group, max, nr)
    ensures 1 <= KthCqid(hi, max, nr) <= max
    ensures var c := KthCqid(hi, max, nr);
      Labelled(es[c - 1 := es[c - 1].(group := group)], lo, hi + 1, group, max, nr)
  {
    CqidBounds(hi, max, nr);
    forall k | lo <= k < hi ensures KthCqid(k, max, nr) != KthCqid(hi, max, nr) {
      BoundsGrow(k, hi, max, nr);
    }
  }

  lemma LabelsBelowStay(es: seq<Enq>, lo: nat, mid: nat, hi: nat, group: nat, e: Enq, max: nat, nr: nat)
    requires Sane(max, nr) && |es| == max && lo <= mid <= hi < nr && Labelled(es, lo, mid, group, max, nr)
    ensures 1 <= KthCqid(hi, max, nr) <= max
    ensures Labelled(es[KthCqid(hi, max, nr) - 1 := e], lo, mid, group, max, nr)
  {
    CqidBounds(hi, max, nr);
    forall k | lo <= k < mid ensures KthCqid(k, max, nr) != KthCqid(hi, max, nr) {
      BoundsGrow(k, hi, max, nr);
    }
  }

  function CqOf(q: nat, max: nat, nr: nat): (c: nat)
    requires Sane(max, nr) && 1 <= q <= max
    ensures c == GetCqid(q, max, nr) && 1 <= c <= q
  {
    QueueInItsBlock(q, max, nr);
    GetCqid(q, max, nr)
  }

  function GroupIds(prio: nat, max: nat, nr: nat): seq<nat>
    requires Sane(max, nr) && FirstOf(prio, nr) <= FirstOf(prio + 1, nr)
  {
    Cqids(FirstOf(prio, nr), FirstOf(prio + 1, nr) - FirstOf(prio, nr), max, nr)
  }

  lemma GroupSizes(prio: nat, nr: nat)
    requires 2 <= nr && prio < LEVELS
    ensures 0 == FirstOf(0, nr) < FirstOf(1, nr) < FirstOf(2, nr) == nr
    ensures FirstOf(prio + 1, nr) - FirstOf(prio, nr) ==
      if prio + 1 == LEVELS then nr - prio * (nr / LEVELS) else nr / LEVELS
    ensures FirstOf(prio + 1, nr) - FirstOf(prio, nr) <= nr - nr / LEVELS
  {
  }

  /** The first n queues have been set up. */
  predicate Shaped(es: seq<Enq>, n: nat, max: nat, nr: nat)
    requires Sane(max, nr) && n <= |es| == max
  {
    forall q :: 0 <= q < n ==> EnqShape(es[q], q + 1, max, nr)
  }

  /** The completion queue of the next queue is the queue itself or has been set up. */
  lemma HeadIsLabelled(es: seq<Enq>, nqid: nat, max: nat, nr: nat)
    requires Sane(max, nr) && 2 <= nr && |es| == max && 1 <= nqid <= max
    requires Heads(es, nqid - 1, max, nr) && Shaped(es, nqid - 1, max, nr)
    ensures es[CqOf(nqid, max, nr) - 1].group == PrioOf(nqid, max, nr)
  {
    GroupsSplit(nqid, 0, max, nr);
    QueueInItsBlock(nqid, max, nr);
    var c := CqOf(nqid, max, nr);
    if c < nqid { assert EnqShape(es[c - 1], c, max, nr); } else { assert HasCq(nqid, max, nr); }
  }

  lemma ShapedNext(es: seq<Enq>, nqid: nat, e: Enq, max: nat, nr: nat)
    requires Sane(max, nr) && |es| == max && 1 <= nqid <= max && EnqShape(e, nqid, max, nr)
    requires Heads(es, nqid - 1, max, nr) && Shaped(es, nqid - 1, max, nr)
    ensures var r := es[nqid - 1 := e]; Heads(r, nqid, max, nr) && Shaped(r, nqid, max, nr)
  {
  }

  /** As set up: counters at zero and the heap in id order. */
  predicate GroupStarts(g: Group, prio: nat, max: nat, nr: nat, mru: int)
    requires Sane(max, nr) && FirstOf(prio, nr) <= FirstOf(prio + 1, nr)
    reads if g.prioArr.Some? then {g.prioArr.value, g.prioArr.value.binHeap} else {}
  {
    g.rrNcqOffset == g.rrNsqOffset == 0 && g.prioArr.Some? && HeapIs(g.prioArr.value, GroupIds(prio, max, nr), mru)
  }

  ghost function GroupHeapOf(g: Group): set<object> {
    if g.prioArr.Some? then {g.prioArr.value, g.prioArr.value.binHeap} else {}
  }

  /** The completion queues not set up yet, from position `from` on, carry the number of their group. */
  predicate Heads(es: seq<Enq>, from: nat, max: nat, nr: nat)
    requires Sane(max, nr) && |es| == max
  {
    forall k :: from <= k < max && HasCq(k + 1, max, nr) ==> es[k].group == PrioOf(k + 1, max, nr)
  }

  lemma HeadsAreLabelled(es: seq<Enq>, max: nat, nr: nat)
    requires Sane(max, nr) && 2 <= nr && |es| == max
    requires Labelled(es, 0, FirstOf(1, nr), 0, max, nr) && Labelled(es, FirstOf(1, nr), nr, 1, max, nr)
    ensures Heads(es, 0, max, nr)
  {
    forall k | 0 <= k < max && HasCq(k + 1, max, nr) ensures es[k].group == PrioOf(k + 1, max, nr) {
      QueueInItsBlock(k + 1, max, nr);
      assert KthCqid(CqidToIndex(k + 1, max, nr), max, nr) == k + 1;
    }
  }

  predicate EnqStarts(e: Enq, mru: int)
    reads if e.encq.Some? && e.encq.value.prioArr.Some?
          then {e.encq.value.prioArr.value, e.encq.value.prioArr.value.binHeap} else {}
  {
    e.encq.Some? ==> EncqStarts(e.encq.value, mru)
  }

  predicate EncqStarts(q: Encq, mru: int)
    reads if q.prioArr.Some? then {q.prioArr.value, q.prioArr.value.binHeap} else {}
  {
    q.rrNsqOffset == 0 && (q.prioArr.Some? ==> HeapIs(q.prioArr.value, Consecutive(q.cqid, q.nrAttachedNsqs), mru))
  }

  /** The objects of a heap. */
  ghost function HeapOf(e: Enq): set<object> {
    if e.encq.Some? then EncqHeapOf(e.encq.value) else {}
  }

  ghost function EncqHeapOf(q: Encq): set<object> {
    if q.prioArr.Some? then {q.prioArr.value, q.prioArr.value.binHeap} else {}
  }

  // ----- Round robin -----

  function GroupStart(prio: nat, max: nat, nr: nat): nat
    requires Sane(max, nr) && 2 <= nr && prio < LEVELS
  {
    Bound(FirstOf(prio, nr), max, nr)
  }

  function GroupCount(prio: nat, max: nat, nr: nat): Pos
    requires Sane(max, nr) && 2 <= nr && prio < LEVELS
  {
    GroupSizes(prio, nr);
    BoundsGrow(FirstOf(prio, nr), FirstOf(prio + 1, nr), max, nr);
    Bound(FirstOf(prio + 1, nr), max, nr) - Bound(FirstOf(prio, nr), max, nr)
  }

  /** The number of completion queues of a group. */
  function GroupCqs(prio: nat, nr: nat): (n: Pos)
    requires 2 <= nr && prio < LEVELS
    ensures FirstOf(prio, nr) + n == FirstOf(prio + 1, nr) <= nr
  {
    GroupSizes(prio, nr);
    FirstOf(prio + 1, nr) - FirstOf(prio, nr)
  }

  lemma GroupExtent(prio: nat, g: Group, max: nat, nr: nat)
    requires Sane(max, nr) && 2 <= nr && prio < LEVELS && GroupShape(g, prio, max, nr)
    ensures g.ncqStart == GroupStart(prio, max, nr) && g.nrAttachNsqs == GroupCount(prio, max, nr)
  {
    GroupSizes(prio, nr);
  }

  function RrNsq(prio: nat, max: nat, nr: nat, counter: int): int
    requires Sane(max, nr) && 2 <= nr && prio < LEVELS
  {
    NsqPick(GroupStart(prio, max, nr), GroupCount(prio, max, nr), counter)
  }

  /** The completion queue of a pick of type BLEX_NCQ. */
  function RrCq(prio: nat, max: nat, nr: nat, counter: int): (cq: nat)
    requires Sane(max, nr) && 2 <= nr && prio < LEVELS
    ensures 1 <= cq <= max && HasCq(cq, max, nr)
  {
    GroupSizes(prio, nr);
    var first := FirstOf(prio, nr);
    var k := first + UnsignedOffset(counter, GroupCqs(prio, nr));
    CqidBounds(k, max, nr);
    IndexInverse(k, 1, max, nr);
    KthCqid(k, max, nr)
  }

  function RrNcq(prio: nat, max: nat, nr: nat, counter: int, attached: int): nat
    requires Sane(max, nr) && 2 <= nr && prio < LEVELS
  {
    var cq := RrCq(prio, max, nr, counter);
    QueueInItsBlock(cq, max, nr);
    cq + UnsignedOffset(attached, CqNrNsqs(cq, max, nr))
  }

  /** The counter of a completion queue after a pick. */
  function BumpNsq(e: Enq): Enq
    requires e.encq.Some?
  {
    e.(encq := Some(e.encq.value.(rrNsqOffset := Inc(e.encq.value.rrNsqOffset))))
  }

  class Regulator {
    const max: nat
    const nr: nat
    const enqs: array<Enq>
    const groups: array<Group>

    predicate Shape()
    {
      Sane(max, nr) && 2 <= nr && enqs.Length == max && groups.Length == LEVELS
    }

    /** All is set up as the numbering functions say. */
    predicate Ready()
      requires Shape()
      reads enqs, groups
    {
      GroupsReady() && EnqsReady()
    }

    predicate GroupsReady()
      requires Shape()
      reads groups
    {
      forall p :: 0 <= p < LEVELS ==> GroupShape(groups[p], p, max, nr) && groups[p].prioArr.Some?
    }

    predicate EnqsReady()
      requires Shape()
      reads enqs
    {
      forall q :: 0 <= q < max ==> EnqShape(enqs[q], q + 1, max, nr)
    }

    /** blk_blex_nq_prio_arr_init for a group. */
    method GroupHeap(g: Group, cpus: nat, mru: int) returns (pa: PrioArray)
      requires Shape() && exists k :: 0 <= k < nr && g.ncqStart == KthCqid(k, max, nr)
      requires 0 < g.nrNcqs <= cpus
      ensures fresh(pa) && fresh(pa.binHeap)
      ensures HeapIs(pa, Cqids(CqidToIndex(g.ncqStart, max, nr), g.nrNcqs, max, nr), mru)
    {
      var heap := new nat[cpus](_ => 0);
      var first := CqidToIndex(g.ncqStart, max, nr);
      var id := 0;
      while id < g.nrNcqs
        invariant 0 <= id <= g.nrNcqs
        invariant heap[..id] == Cqids(first, id, max, nr)
      {
        heap[id] := KthCqid(first + id, max, nr);
        id := id + 1;
      }
      pa := new PrioArray(heap, g.nrNcqs, mru);
    }

    /** blk_blex_nq_prio_arr_init for a completion queue. */
    method EncqHeap(encq: Encq, mru: int) returns (pa: PrioArray)
      requires encq.nrAttachedNsqs > 0
      ensures fresh(pa) && fresh(pa.binHeap)
      ensures HeapIs(pa, Consecutive(encq.cqid, encq.nrAttachedNsqs), mru)
    {
      var heap := new nat[encq.nrAttachedNsqs](_ => 0);
      var id := 0;
      while id < encq.nrAttachedNsqs
        invariant 0 <= id <= encq.nrAttachedNsqs
        invariant heap[..id] == Consecutive(encq.cqid, id)
      {
        heap[id] := encq.cqid + id;
        id := id + 1;
      }
      pa := new PrioArray(heap, encq.nrAttachedNsqs, mru);
    }

    /** The loop of blk_blex_nq_group_init: label the completion queues and count submission queues. */
    method LabelQueues(prio: nat, first: nat, n: nat) returns (attached: nat)
      requires Shape() && first + n <= nr && n > 0
      requires Labelled(enqs[..], 0, first, 0, max, nr)
      modifies enqs
      ensures Labelled(enqs[..], 0, first, 0, max, nr)
      ensures Labelled(enqs[..], first, first + n, prio, max, nr)
      ensures KthCqid(first, max, nr) + attached == Bound(first + n, max, nr)
    {
      attached := 0;
      var i := 0;
      while i < n
        invariant 0 <= i <= n
        invariant Labelled(enqs[..], 0, first, 0, max, nr)
        invariant Labelled(enqs[..], first, first + i, prio, max, nr)
        invariant Bound(first, max, nr) + attached == Bound(first + i, max, nr)
      {
        var cqid := KthCqid(first + i, max, nr);
        NextBound(first + i, max, nr);
        LabelOne(prio, first, first + i, cqid);
        attached := attached + CqNrNsqs(cqid, max, nr);
        i := i + 1;
      }
    }

    /** The next completion queue joins the group. */
    method LabelOne(prio: nat, first: nat, k: nat, cqid: nat)
      requires Shape() && first <= k < nr && cqid == KthCqid(k, max, nr)
      requires Labelled(enqs[..], 0, first, 0, max, nr) && Labelled(enqs[..], first, k, prio, max, nr)
      modifies enqs
      ensures Labelled(enqs[..], 0, first, 0, max, nr) && Labelled(enqs[..], first, k + 1, prio, max, nr)
    {
      ghost var was := enqs[..];
      LabelNext(was, first, k, prio, max, nr);
      LabelsBelowStay(was, 0, first, k, 0, enqs[cqid - 1].(group := prio), max, nr);
      enqs[cqid - 1] := enqs[cqid - 1].(group := prio);
      assert enqs[..] == was[cqid - 1 := was[cqid - 1].(group := prio)];
    }

    /** blk_blex_nq_group_init. */
    method GroupInit(prio: nat, cpus: nat, mru: int)
      requires Shape() && prio < LEVELS && nr - nr / LEVELS <= cpus
      requires Labelled(enqs[..], 0, FirstOf(prio, nr), 0, max, nr)
      modifies enqs, this.groups
      ensures Labelled(enqs[..], 0, FirstOf(prio, nr), 0, max, nr)
      ensures Labelled(enqs[..], FirstOf(prio, nr), FirstOf(prio + 1, nr), prio, max, nr)
      ensures GroupShape(groups[prio], prio, max, nr) && GroupStarts(groups[prio], prio, max, nr, mru)
      ensures fresh(GroupHeapOf(groups[prio]))
      ensures forall p :: 0 <= p < LEVELS && p != prio ==> groups[p] == old(groups[p])
    {
      var perGroup := nr / LEVELS;
      var first := prio * perGroup;
      var n := if prio + 1 == LEVELS then nr - first else perGroup;
      GroupSizes(prio, nr);
      var attached := LabelQueues(prio, first, n);
      var g := GroupRecord(prio, first, n, attached, cpus, mru);
      groups[prio] := g;
    }

    /** The fields of a group with n completion queues from index first on, and its heap. */
    method GroupRecord(prio: nat, first: nat, n: nat, attached: nat, cpus: nat, mru: int) returns (g: Group)
      requires Shape() && prio < LEVELS && first == FirstOf(prio, nr) && first + n == FirstOf(prio + 1, nr) <= nr
      requires 0 < n <= cpus && KthCqid(first, max, nr) + attached == Bound(first + n, max, nr)
      ensures GroupShape(g, prio, max, nr) && GroupStarts(g, prio, max, nr, mru) && fresh(GroupHeapOf(g))
    {
      g := Group(prio, attached, n, KthCqid(first, max, nr), 0, 0, None);
      IndexInverse(first, 1, max, nr);
      var pa := GroupHeap(g, cpus, mru);
      g := g.(prioArr := Some(pa));
    }

    /** The eNCQ part of blk_blex_enq_init. */
    method EncqInit(cqid: nat, mru: int) returns (encq: Encq)
      requires Shape() && 1 <= cqid <= max && HasCq(cqid, max, nr)
      ensures encq.cqid == cqid && encq.nrAttachedNsqs == CqNrNsqs(cqid, max, nr) && encq.rrNsqOffset == 0
      ensures encq.prioArr.Some? <==> encq.nrAttachedNsqs > 1
      ensures EncqStarts(encq, mru) && fresh(EncqHeapOf(encq))
    {
      encq := Encq(cqid, CqNrNsqs(cqid, max, nr), 0, None);
      if encq.nrAttachedNsqs > 1 {
        var pa := EncqHeap(encq, mru);
        encq := encq.(prioArr := Some(pa));
      }
    }

    /** blk_blex_enq_init. */
    method EnqInit(nqid: nat, mru: int)
      requires Shape() && 1 <= nqid <= max
      requires enqs[CqOf(nqid, max, nr) - 1].group == PrioOf(nqid, max, nr)
      requires forall p :: 0 <= p < LEVELS ==> groups[p].prio == p
      modifies enqs
      ensures enqs[..] == old(enqs[..])[nqid - 1 := enqs[nqid - 1]]
      ensures EnqShape(enqs[nqid - 1], nqid, max, nr)
      ensures EnqStarts(enqs[nqid - 1], mru) && fresh(HeapOf(enqs[nqid - 1]))
    {
      var cqid := GetCqid(nqid, max, nr);
      QueueInItsBlock(nqid, max, nr);
      var group := enqs[cqid - 1].group;
      var prio := groups[group].prio;
      var e := Enq(group, prio, nqid, cqid, None);
      if nqid == cqid {
        var encq := EncqInit(cqid, mru);
        e := e.(encq := Some(encq));
      }
      enqs[nqid - 1] := e;
    }

    /** blk_blex_nq_regulator_alloc_and_init, on zeroed arrays. */
    method Init(cpus: nat, mru: int)
      requires Shape() && nr - nr / LEVELS <= cpus
      modifies enqs, this.groups
      ensures Ready()
      ensures forall p :: 0 <= p < LEVELS ==> GroupStarts(groups[p], p, max, nr, mru)
      ensures forall q :: 0 <= q < max ==> EnqStarts(enqs[q], mru)
    {
      GroupsInit(cpus, mru);
      EnqsInit(mru);
    }

    method GroupsInit(cpus: nat, mru: int)
      requires Shape() && nr - nr / LEVELS <= cpus
      modifies enqs, this.groups
      ensures GroupsReady()
      ensures forall p :: 0 <= p < LEVELS ==> GroupStarts(groups[p], p, max, nr, mru) && fresh(GroupHeapOf(groups[p]))
      ensures Labelled(enqs[..], 0, FirstOf(1, nr), 0, max, nr) && Labelled(enqs[..], FirstOf(1, nr), nr, 1, max, nr)
    {
      GroupSizes(0, nr);
      var prio := 0;
      while prio < LEVELS
        invariant 0 <= prio <= LEVELS
        invariant prio > 0 ==> Labelled(enqs[..], 0, FirstOf(1, nr), 0, max, nr)
        invariant prio > 1 ==> Labelled(enqs[..], FirstOf(1, nr), nr, 1, max, nr)
        invariant forall p :: 0 <= p < prio ==> GroupShape(groups[p], p, max, nr) && groups[p].prioArr.Some?
        invariant forall p :: 0 <= p < prio ==> GroupStarts(groups[p], p, max, nr, mru)
        invariant forall p :: 0 <= p < prio ==> fresh(GroupHeapOf(groups[p]))
      {
        GroupInit(prio, cpus, mru);
        prio := prio + 1;
      }
    }

    method EnqsInit(mru: int)
      requires Shape() && GroupsReady()
      requires Labelled(enqs[..], 0, FirstOf(1, nr), 0, max, nr) && Labelled(enqs[..], FirstOf(1, nr), nr, 1, max, nr)
      modifies enqs
      ensures EnqsReady()
      ensures forall q :: 0 <= q < max ==> EnqStarts(enqs[q], mru)
    {
      HeadsAreLabelled(enqs[..], max, nr);
      var nqid := 1;
      while nqid <= max
        invariant 1 <= nqid <= max + 1
        invariant Heads(enqs[..], nqid - 1, max, nr) && Shaped(enqs[..], nqid - 1, max, nr)
        invariant forall q :: 0 <= q < nqid - 1 ==> EnqStarts(enqs[q], mru) && fresh(HeapOf(enqs[q]))
      {
        ghost var was := enqs[..];
        HeadIsLabelled(was, nqid, max, nr);
        EnqInit(nqid, mru);
        ShapedNext(was, nqid, enqs[nqid - 1], max, nr);
        nqid := nqid + 1;
      }
    }

    /** blk_blex_sched_rr_next_nsqid. */
    method RrNextNsqid(prio: nat, kind: Kind) returns (sel: int)
      requires Shape() && Ready() && prio < LEVELS
      modifies this.groups, enqs
      ensures Ready()
      ensures kind == Nsq ==>
        var g := old(groups[prio]);
        && sel == RrNsq(prio, max, nr, g.rrNsqOffset)
        && groups[..] == old(groups[..])[prio := g.(rrNsqOffset := Inc(g.rrNsqOffset))]
        && enqs[..] == old(enqs[..])
      ensures kind == Ncq ==>
        var g := old(groups[prio]);
        var cq := RrCq(prio, max, nr, g.rrNcqOffset);
        var e := old(enqs[cq - 1]);
        && sel == RrNcq(prio, max, nr, g.rrNcqOffset, e.encq.value.rrNsqOffset)
        && groups[..] == old(groups[..])[prio := g.(rrNcqOffset := Inc(g.rrNcqOffset))]
        && enqs[..] == old(enqs[..])[cq - 1 := BumpNsq(e)]
    {
      var g := groups[prio];
      assert GroupShape(g, prio, max, nr);
      if kind == Ncq {
        sel := RrNextNcq(prio);
      } else {
        GroupExtent(prio, g, max, nr);
        groups[prio] := g.(rrNsqOffset := Inc(g.rrNsqOffset));
        sel := g.ncqStart + Rem(g.rrNsqOffset, g.nrAttachNsqs);
      }
    }

    /** The BLEX_NCQ branch. */
    method RrNextNcq(prio: nat) returns (sel: nat)
      requires Shape() && Ready() && prio < LEVELS
      modifies this.groups, enqs
      ensures Ready()
      ensures var g := old(groups[prio]);
        var cq := RrCq(prio, max, nr, g.rrNcqOffset);
        var e := old(enqs[cq - 1]);
        && sel == RrNcq(prio, max, nr, g.rrNcqOffset, e.encq.value.rrNsqOffset)
        && groups[..] == old(groups[..])[prio := g.(rrNcqOffset := Inc(g.rrNcqOffset))]
        && enqs[..] == old(enqs[..])[cq - 1 := BumpNsq(e)]
    {
      var g := groups[prio];
      assert GroupShape(g, prio, max, nr);
      var start := CqidToIndex(g.ncqStart, max, nr);
      IndexInverse(FirstOf(prio, nr), 1, max, nr);
      var offset := UnsignedOffset(g.rrNcqOffset, g.nrNcqs);
      groups[prio] := g.(rrNcqOffset := Inc(g.rrNcqOffset));
      var cq := KthCqid(start + offset, max, nr);
      assert cq == RrCq(prio, max, nr, g.rrNcqOffset);
      var e := enqs[cq - 1];
      assert EnqShape(e, cq, max, nr);
      QueueInItsBlock(cq, max, nr);
      var encq := e.encq.value;
      sel := cq + UnsignedOffset(encq.rrNsqOffset, encq.nrAttachedNsqs);
      enqs[cq - 1] := BumpNsq(e);
    }
  }

  /** The queues of a group. */
  predicate InGroup(q: int, prio: nat, max: nat, nr: nat)
    requires Sane(max, nr) && 2 <= nr && prio < LEVELS
  {
    1 <= q <= max && PrioOf(q, max, nr) == prio
  }

  /** A group is the interval of its submission queues. */
  lemma GroupIsInterval(q: int, prio: nat, max: nat, nr: nat)
    requires Sane(max, nr) && 2 <= nr && prio < LEVELS
    ensures var (start, n) := (GroupStart(prio, max, nr), GroupCount(prio, max, nr));
      InGroup(q, prio, max, nr) <==> start <= q < start + n
  {
    GroupSizes(prio, nr);
    BoundsGrow(0, FirstOf(prio, nr), max, nr);
    BoundsGrow(FirstOf(prio + 1, nr), nr, max, nr);
    GroupsSplit(if 1 <= q <= max then q else 1, prio, max, nr);
  }

  /** The pick of type BLEX_NSQ has the priority asked for as long as the counter has not wrapped below
      zero, or is a multiple of the number of queues; else it never has. */
  lemma NsqPickHasPrioIff(prio: nat, max: nat, nr: nat, counter: int)
    requires Sane(max, nr) && 2 <= nr && prio < LEVELS
    ensures InGroup(RrNsq(prio, max, nr, counter), prio, max, nr) <==>
      counter >= 0 || (-counter) % GroupCount(prio, max, nr) == 0
  {
    GroupIsInterval(RrNsq(prio, max, nr, counter), prio, max, nr);
    NsqPickInGroupIff(GroupStart(prio, max, nr), GroupCount(prio, max, nr), counter);
  }

  /** One cycle of picks of type BLEX_NSQ visits every queue of the priority once. */
  lemma NsqCycleCoversGroup(prio: nat, max: nat, nr: nat, counter: nat, t: nat, i: nat)
    requires Sane(max, nr) && 2 <= nr && prio < LEVELS
    requires t < GroupCount(prio, max, nr) && i < GroupCount(prio, max, nr)
    ensures RrNsq(prio, max, nr, counter + i) == GroupStart(prio, max, nr) + t <==>
      i == Turn(counter, GroupCount(prio, max, nr), t)
    ensures InGroup(GroupStart(prio, max, nr) + t, prio, max, nr)
  {
    var (start, n) := (GroupStart(prio, max, nr), GroupCount(prio, max, nr));
    GroupIsInterval(start + t, prio, max, nr);
    NsqCycle(start, n, counter, start + t, i);
  }

  /** The pick of type BLEX_NCQ has the priority asked for whatever the counters; its completion queue
      is the one chosen from the group. */
  lemma NcqPickHasPrio(prio: nat, max: nat, nr: nat, counter: int, attached: int)
    requires Sane(max, nr) && 2 <= nr && prio < LEVELS
    ensures var q := RrNcq(prio, max, nr, counter, attached);
      InGroup(q, prio, max, nr) && GetCqid(q, max, nr) == RrCq(prio, max, nr, counter)
  {
    GroupSizes(prio, nr);
    var k := FirstOf(prio, nr) + UnsignedOffset(counter, GroupCqs(prio, nr));
    var q := RrNcq(prio, max, nr, counter, attached);
    NextBound(k, max, nr);
    IndexInverse(k, q, max, nr);
    BoundsGrow(FirstOf(prio, nr), k, max, nr);
    BoundsGrow(k + 1, FirstOf(prio + 1, nr), max, nr);
    GroupsSplit(q, prio, max, nr);
  }

  /** One cycle of picks of type BLEX_NCQ visits every completion queue of the group once. */
  lemma NcqCycleCoversGroup(prio: nat, max: nat, nr: nat, counter: int, t: nat, i: nat)
    requires Sane(max, nr) && 2 <= nr && prio < LEVELS && IsInt(counter)
    requires t < GroupCqs(prio, nr) && i < GroupCqs(prio, nr) && ToUnsigned(counter) + i < TWO_32
    ensures RrCq(prio, max, nr, counter + i) == KthCqid(FirstOf(prio, nr) + t, max, nr) <==>
      i == Turn(ToUnsigned(counter), GroupCqs(prio, nr), t)
  {
    var (first, n) := (FirstOf(prio, nr), GroupCqs(prio, nr));
    UnsignedCycle(n, counter, t, i);
    IndexInverse(first + t, 1, max, nr);
    IndexInverse(first + UnsignedOffset(counter + i, n), 1, max, nr);
  }
}
