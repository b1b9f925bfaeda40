/**
 A priority array and its update in place (daredevil/block/blk-blex.c:1004-1087). The statistics of all
 exposed queues lie in one array; the queue with id q has the entry q - 1.
*/
module PrioArrays {
  import opened Merits
  import opened Heaps
  import opened Seqs

  /** The merits of all queues. */
  function MeritsOf(metric: Stats -> int, es: seq<Stats>): (ms: seq<int>)
    ensures |ms| == |es|
    ensures forall k :: 0 <= k < |es| ==> ms[k] == metric(es[k])
  {
    seq(|es|, k requires 0 <= k < |es| => metric(es[k]))
  }

  /** The merit the top is given: a forced infinite one replaces the computed one, any other is added. */
  function UsedMerit(force: int, merit: int): int {
    if force == INF then INF else ToInt(merit + force)
  }

  /** The statistics after an update that moved queue `top` away from the top. */
  function AfterUpdate(kind: Kind, es: seq<Stats>, top: nat, merit: int, changed: bool): seq<Stats>
    requires 1 <= top <= |es|
  {
    if changed then es[top - 1 := Reset(kind, es[top - 1], merit)] else es
  }

  /** The outcome of an update under the lock, from heap h and statistics es. */
  predicate Reordered(h: seq<nat>, es: seq<Stats>, h': seq<nat>, es': seq<Stats>, force: int, kind: Kind,
                      metric: Stats -> int)
    requires |h| > 0 && AllIds(h, |es|)
  {
    var ms := MeritsOf(metric, es);
    var merit := ms[h[0] - 1];
    && h' == Sift(h, 0, UsedMerit(force, merit), ms)
    && es' == AfterUpdate(kind, es, h[0], merit, h'[0] != h[0])
  }

  /** The queue on top has the least merit. */
  predicate LeastOnTop(h: seq<nat>, ms: seq<int>)
    requires AllIds(h, |ms|)
  {
    h != [] && forall k :: 0 <= k < |h| ==> ms[h[0] - 1] <= ms[h[k] - 1]
  }

  /** An update that is not forced compares with the merit of the top plus what is added. */
  lemma OrdinaryUpdate(h: seq<nat>, es: seq<Stats>, h': seq<nat>, es': seq<Stats>, force: int, kind: Kind,
                       metric: Stats -> int, ms: seq<int>)
    requires |h| > 0 && AllIds(h, |es|) && Distinct(h) && Reordered(h, es, h', es', force, kind, metric)
    requires ms == MeritsOf(metric, es) && OrderedExcept(h, ms, 0)
    requires force != INF && IsInt(ms[h[0] - 1] + force)
    ensures var us := ms[h[0] - 1 := ms[h[0] - 1] + force];
      AllIds(h', |us|) && IsHeap(h', us) && LeastOnTop(h', us)
  {
    var us := ms[h[0] - 1 := ms[h[0] - 1] + force];
    UpdateMakesHeap(h, ms[h[0] - 1] + force, ms);
    forall k | 0 <= k < |h'| ensures us[h'[0] - 1] <= us[h'[k] - 1] { RootIsLeast(h', us, k); }
  }

  /** The same with nothing added. */
  lemma PlainUpdate(h: seq<nat>, es: seq<Stats>, h': seq<nat>, es': seq<Stats>, kind: Kind,
                    metric: Stats -> int, ms: seq<int>)
    requires |h| > 0 && AllIds(h, |es|) && Distinct(h) && Reordered(h, es, h', es', 0, kind, metric)
    requires ms == MeritsOf(metric, es) && OrderedExcept(h, ms, 0) && IsInt(ms[h[0] - 1])
    ensures AllIds(h', |ms|) && IsHeap(h', ms) && LeastOnTop(h', ms)
  {
    OrdinaryUpdate(h, es, h', es', 0, kind, metric, ms);
    assert ms[h[0] - 1 := ms[h[0] - 1] + 0] == ms;
  }

  lemma SiftStep(h: seq<nat>, i: nat, used: int, ms: seq<int>)
    requires AllIds(h, |ms|) && 2 * i + 1 < |h|
    ensures var c := Son(h, i, ms);
      && AllIds(Swap(h, i, c), |ms|)
      && Sift(h, i, used, ms) == if ms[h[c] - 1] > used then h else Sift(Swap(h, i, c), c, used, ms)
  {
  }

  /** A forced update of several queues changes the top, whatever the order of the heap. */
  lemma ForcedLeaves(h: seq<nat>, ms: seq<int>)
    requires AllIds(h, |ms|) && Distinct(h) && |h| > 1 && forall q :: 0 <= q < |ms| ==> ms[q] <= INF
    ensures Sift(h, 0, INF, ms)[0] != h[0]
  {
    assert ms[h[1] - 1] <= INF;
    TopChangesIff(h, INF, ms);
  }

  /** What the outcome of an update means. */
  lemma Consequences(h: seq<nat>, es: seq<Stats>, h': seq<nat>, es': seq<Stats>, force: int, kind: Kind,
                     metric: Stats -> int)
    requires |h| > 0 && AllIds(h, |es|) && Distinct(h) && Reordered(h, es, h', es', force, kind, metric)
    ensures AllIds(h', |es|)
    ensures var ms := MeritsOf(metric, es);
      force == 0 && OrderedExcept(h, ms, 0) && IsInt(ms[h[0] - 1]) ==> IsHeap(h', ms) && LeastOnTop(h', ms)
    ensures force == INF && |h| > 1 && (forall s :: metric(s) <= INF) ==> h'[0] != h[0]
  {
    var ms := MeritsOf(metric, es);
    SiftKeepsIds(h, 0, UsedMerit(force, ms[h[0] - 1]), ms);
    if force == 0 && OrderedExcept(h, ms, 0) && IsInt(ms[h[0] - 1]) {
      PlainUpdate(h, es, h', es', kind, metric, ms);
    }
    if force == INF && |h| > 1 && forall s :: metric(s) <= INF { ForcedLeaves(h, ms); }
  }

  lemma MeritsAreInts(kind: Kind, p: Params, es: seq<Stats>, id: nat)
    requires 1 <= id <= |es|
    ensures IsInt(MeritsOf(MeritOf(kind, p), es)[id - 1]) && forall s :: MeritOf(kind, p)(s) <= INF
  {
    MeritIsInt(kind, p, es[id - 1]);
    forall s: Stats ensures MeritOf(kind, p)(s) <= INF { MeritIsInt(kind, p, s); }
  }

  class PrioArray {
    const binHeap: array<nat>
    const count: nat
    var mru: int
    var top: nat
    var locked: bool

    constructor (heap: array<nat>, count: nat, mru: int)
      requires 0 < count <= heap.Length
      ensures this.binHeap == heap && this.count == count && this.mru == mru && !locked && top == heap[0]
    {
      this.binHeap := heap;
      this.count := count;
      this.mru := mru;
      this.top := heap[0];
      this.locked := false;
    }

    /** The ids in the heap. */
    function Heap(): seq<nat>
      reads this, binHeap
      requires count <= binHeap.Length
    {
      binHeap[..count]
    }

    ghost predicate Valid(n: nat)
      reads this, binHeap
    {
      && 0 < count <= binHeap.Length
      && AllIds(Heap(), n) && Distinct(Heap())
      && top == Heap()[0]
    }

    /** The loop's choice between the sons of entry i. */
    method PickSon(i: nat, metric: Stats -> int, enqs: array<Stats>) returns (son: nat, compared: int)
      requires count <= binHeap.Length && AllIds(Heap(), enqs.Length) && 2 * i + 1 < count
      ensures var ms := MeritsOf(metric, enqs[..]);
        son == Son(Heap(), i, ms) && compared == ms[Heap()[son] - 1]
    {
      son := 2 * i + 1;
      compared := metric(enqs[binHeap[son] - 1]);
      var right := 2 * i + 2;
      if right < count {
        var rightMerit := metric(enqs[binHeap[right] - 1]);
        if rightMerit < compared {
          son := right;
          compared := rightMerit;
        }
      }
    }

    /** The sift-down loop. */
    method SiftDown(used: int, metric: Stats -> int, enqs: array<Stats>)
      requires count <= binHeap.Length && AllIds(Heap(), enqs.Length)
      modifies binHeap
      ensures Heap() == Sift(old(Heap()), 0, used, MeritsOf(metric, enqs[..]))
    {
      var i := 0;
      ghost var ms := MeritsOf(metric, enqs[..]);
      while 2 * i + 1 < count
        invariant AllIds(Heap(), enqs.Length)
        invariant Sift(Heap(), i, used, ms) == Sift(old(Heap()), 0, used, ms)
        decreases count - i
      {
        SiftStep(Heap(), i, used, ms);
        var son, compared := PickSon(i, metric, enqs);
        if compared > used {
          return;
        }
        SwapEntries(i, son);
        i := son;
      }
    }

    method SwapEntries(i: nat, j: nat)
      requires i < count <= binHeap.Length && j < count
      modifies binHeap
      ensures Heap() == Swap(old(Heap()), i, j)
    {
      var tmp := binHeap[i];
      binHeap[i] := binHeap[j];
      binHeap[j] := tmp;
    }

    method PublishTop() returns (changed: bool)
      requires 0 < count <= binHeap.Length
      modifies this`top
      ensures top == Heap()[0] && changed == (top != old(top))
    {
      changed := false;
      if binHeap[0] != top {
        changed := true;
        top := binHeap[0];
      }
    }

    /** The update under the lock: the top is moved to its place, and a queue that left the top starts
        afresh. */
    method Reorder(force: int, kind: Kind, metric: Stats -> int, enqs: array<Stats>, p: Params)
      requires Valid(enqs.Length)
      modifies this`mru, this`top, binHeap, enqs
      ensures Valid(enqs.Length) && mru == p.mru
      ensures Reordered(old(Heap()), old(enqs[..]), Heap(), enqs[..], force, kind, metric)
    {
      ghost var h, es := Heap(), enqs[..];
      var was := top;
      var merit := metric(enqs[was - 1]);
      assert was == h[0] && merit == MeritsOf(metric, es)[was - 1];
      var changed := SiftTop(UsedMerit(force, merit), metric, enqs);
      assert changed == (Heap()[0] != h[0]);
      mru := p.mru;
      if changed {
        Restart(kind, was, merit, enqs);
      }
    }

    /** The statistics of a queue that left the top start afresh. */
    method Restart(kind: Kind, was: nat, merit: int, enqs: array<Stats>)
      requires 1 <= was <= enqs.Length
      modifies enqs
      ensures enqs[..] == AfterUpdate(kind, old(enqs[..]), was, merit, true)
    {
      enqs[was - 1] := Reset(kind, enqs[was - 1], merit);
    }

    /** The part under the lock: move the top to its place and publish the new top. */
    method SiftTop(used: int, metric: Stats -> int, enqs: array<Stats>) returns (changed: bool)
      requires Valid(enqs.Length)
      modifies this`top, binHeap
      ensures Valid(enqs.Length) && changed == (top != old(top))
      ensures Heap() == Sift(old(Heap()), 0, used, MeritsOf(metric, enqs[..]))
    {
      SiftKeepsIds(Heap(), 0, used, MeritsOf(metric, enqs[..]));
      SiftDown(used, metric, enqs);
      changed := PublishTop();
    }

    /** blk_blex_update_priority_array, with metric == MeritOf(kind, p). */
    method UpdateWith(uses: int, force: int, kind: Kind, metric: Stats -> int, enqs: array<Stats>, p: Params)
      requires Valid(enqs.Length)
      modifies this`mru, this`top, binHeap, enqs
      ensures Valid(enqs.Length)
      // Not yet time, or another CPU is updating: only the uses are counted.
      ensures var left := ToInt(old(mru) - uses);
        left > 0 || locked ==> mru == left && Heap() == old(Heap()) && enqs[..] == old(enqs[..])
      ensures ToInt(old(mru) - uses) <= 0 && !locked ==>
        mru == p.mru && Reordered(old(Heap()), old(enqs[..]), Heap(), enqs[..], force, kind, metric)
    {
      mru := ToInt(mru - uses);
      if mru <= 0 {
        if locked {
          return;
        }
        Reorder(force, kind, metric, enqs, p);
      }
    }

    /** The same, in terms of merits. When due and not locked: without force and from a heap in order below
        its root, it leaves a heap under the merits of the moment, with a queue of least merit on top; with
        force it leaves another queue on top than before. A queue that left the top starts afresh with its
        merit stored; all other statistics stay. */
    method Update(uses: int, force: int, kind: Kind, metric: Stats -> int, enqs: array<Stats>, p: Params)
      requires Valid(enqs.Length)
      modifies this`mru, this`top, binHeap, enqs
      ensures Valid(enqs.Length)
      ensures var left := ToInt(old(mru) - uses);
        left > 0 || locked ==> mru == left && Heap() == old(Heap()) && enqs[..] == old(enqs[..])
      ensures ToInt(old(mru) - uses) <= 0 && !locked ==>
        mru == p.mru && Reordered(old(Heap()), old(enqs[..]), Heap(), enqs[..], force, kind, metric)
      ensures ToInt(old(mru) - uses) <= 0 && !locked && force == 0 ==>
        var ms := MeritsOf(metric, old(enqs[..]));
        OrderedExcept(old(Heap()), ms, 0) && IsInt(ms[old(top) - 1]) ==> IsHeap(Heap(), ms) && LeastOnTop(Heap(), ms)
      ensures ToInt(old(mru) - uses) <= 0 && !locked && force == INF && count > 1 ==>
        (forall s :: metric(s) <= INF) ==> top != old(top)
    {
      ghost var h, es := Heap(), enqs[..];
      UpdateWith(uses, force, kind, metric, enqs, p);
      if ToInt(old(mru) - uses) <= 0 && !locked {
        Consequences(h, es, Heap(), enqs[..], force, kind, metric);
      }
    }

    /** The same with the merits that blk_blex_calc_sched_merit computes. */
    method UpdatePriorityArray(uses: int, force: int, kind: Kind, enqs: array<Stats>, p: Params)
      requires Valid(enqs.Length)
      modifies this`mru, this`top, binHeap, enqs
      ensures Valid(enqs.Length)
      ensures var left := ToInt(old(mru) - uses);
        left > 0 || locked ==> mru == left && Heap() == old(Heap()) && enqs[..] == old(enqs[..])
      ensures ToInt(old(mru) - uses) <= 0 && !locked ==>
        mru == p.mru && Reordered(old(Heap()), old(enqs[..]), Heap(), enqs[..], force, kind, MeritOf(kind, p))
      ensures ToInt(old(mru) - uses) <= 0 && !locked && force == 0 ==>
        var ms := MeritsOf(MeritOf(kind, p), old(enqs[..]));
        OrderedExcept(old(Heap()), ms, 0) ==> IsHeap(Heap(), ms) && LeastOnTop(Heap(), ms)
      ensures ToInt(old(mru) - uses) <= 0 && !locked && force == INF && count > 1 ==> top != old(top)
    {
      var metric := MeritOf(kind, p);
      MeritsAreInts(kind, p, enqs[..], top);
      Update(uses, force, kind, metric, enqs, p);
    }
  }

  /** If no merit exceeds the infinite one, as MeritIsInt shows of the merits used, a forced update with
      at least two queues always brings another queue to the top: one of least merit, if the heap was
      in order below its root. */
  lemma ForcedUpdateChangesTop(h: seq<nat>, metric: Stats -> int, es: seq<Stats>, ms: seq<int>, merit: int, k: nat)
    requires ms == MeritsOf(metric, es) && forall s :: metric(s) <= INF
    requires AllIds(h, |ms|) && Distinct(h) && 0 < k < |h| && OrderedExcept(h, ms, 0)
    ensures var r := Sift(h, 0, UsedMerit(INF, merit), ms);
      r[0] != h[0] && 1 <= r[0] <= |ms| && ms[r[0] - 1] <= ms[h[k] - 1]
  {
    assert UsedMerit(INF, merit) == INF;
    forall q | 0 <= q < |ms| ensures ms[q] <= INF { assert ms[q] == metric(es[q]); }
    GreatestMeritLeavesTop(h, INF, ms, k);
  }
}
