/**
 The min-heap behind a queue recommendation (daredevil/block/blk-blex.c:1004-1087).
 A heap holds queue ids, which start at 1; `ms[id - 1]` is the merit of queue id during one update.
*/
module Heaps {
  import opened Seqs

  function Parent(k: nat): nat
    requires k > 0
  {
    (k - 1) / 2
  }

  function Swap(h: seq<nat>, i: nat, j: nat): (r: seq<nat>)
    requires i < |h| && j < |h|
    ensures |r| == |h| && r[i] == h[j] && r[j] == h[i]
    ensures forall k {:trigger r[k]} :: 0 <= k < |h| && k != i && k != j ==> r[k] == h[k]
  {
    h[i := h[j]][j := h[i]]
  }

  /** Every entry is a queue id. */
  predicate AllIds(h: seq<nat>, n: nat) { forall k :: 0 <= k < |h| ==> 1 <= h[k] <= n }

  /** The son the loop compares with: the right one only if it exists and is strictly smaller. */
  function Son(h: seq<nat>, i: nat, ms: seq<int>): (c: nat)
    requires AllIds(h, |ms|) && 2 * i + 1 < |h|
    ensures 2 * i + 1 <= c <= 2 * i + 2 && c < |h|
    ensures ms[h[c] - 1] <= ms[h[2 * i + 1] - 1]
    ensures 2 * i + 2 < |h| ==> ms[h[c] - 1] <= ms[h[2 * i + 2] - 1]
  {
    var l := 2 * i + 1;
    if l + 1 < |h| && ms[h[l + 1] - 1] < ms[h[l] - 1] then l + 1 else l
  }

  /** The sift-down loop: stop only at a son that is strictly greater. */
  function Sift(h: seq<nat>, i: nat, used: int, ms: seq<int>): (r: seq<nat>)
    requires AllIds(h, |ms|)
    ensures |r| == |h|
    decreases |h| - i
  {
    if 2 * i + 1 >= |h| then h
    else
      var c := Son(h, i, ms);
      if ms[h[c] - 1] > used then h else Sift(Swap(h, i, c), c, used, ms)
  }

  // ----- The same ids -----

  lemma SwapIsPermutation(h: seq<nat>, i: nat, j: nat)
    requires i < |h| && j < |h|
    ensures multiset(Swap(h, i, j)) == multiset(h)
  {
  }

  lemma {:induction false} SiftIsPermutation(h: seq<nat>, i: nat, used: int, ms: seq<int>)
    requires AllIds(h, |ms|)
    ensures multiset(Sift(h, i, used, ms)) == multiset(h)
    decreases |h| - i
  {
    if 2 * i + 1 < |h| {
      var c := Son(h, i, ms);
      if ms[h[c] - 1] <= used {
        SwapIsPermutation(h, i, c);
        SiftIsPermutation(Swap(h, i, c), c, used, ms);
      }
    }
  }

  lemma {:induction false} SiftKeepsIds(h: seq<nat>, i: nat, used: int, ms: seq<int>)
    requires AllIds(h, |ms|) && Distinct(h)
    ensures AllIds(Sift(h, i, used, ms), |ms|) && Distinct(Sift(h, i, used, ms))
    decreases |h| - i
  {
    if 2 * i + 1 < |h| {
      var c := Son(h, i, ms);
      if ms[h[c] - 1] <= used { SiftKeepsIds(Swap(h, i, c), c, used, ms); }
    }
  }

  // ----- Heap order -----

  predicate Below(h: seq<nat>, ms: seq<int>, k: nat)
    requires AllIds(h, |ms|) && 0 < k < |h|
  {
    ms[h[Parent(k)] - 1] <= ms[h[k] - 1]
  }

  /** In order below every parent other than `hole`. */
  predicate OrderedExcept(h: seq<nat>, ms: seq<int>, hole: nat)
    requires AllIds(h, |ms|)
  {
    forall k {:trigger Below(h, ms, k)} :: 0 < k < |h| && Parent(k) != hole ==> Below(h, ms, k)
  }

  predicate IsHeap(h: seq<nat>, ms: seq<int>)
    requires AllIds(h, |ms|)
  {
    forall k {:trigger Below(h, ms, k)} :: 0 < k < |h| ==> Below(h, ms, k)
  }

  /** The merit of the hole's parent bounds that of entry k. */
  predicate UnderParent(h: seq<nat>, ms: seq<int>, hole: nat, k: nat)
    requires AllIds(h, |ms|)
  {
    0 < hole < |h| && k < |h| ==> ms[h[Parent(hole)] - 1] <= ms[h[k] - 1]
  }

  /** The sons of the hole are in order with the hole's parent. */
  predicate Bridged(h: seq<nat>, ms: seq<int>, hole: nat)
    requires AllIds(h, |ms|)
  {
    UnderParent(h, ms, hole, 2 * hole + 1) && UnderParent(h, ms, hole, 2 * hole + 2)
  }

  /** The state of the loop: entry i has merit `used` under ms, everything else is in place. */
  ghost predicate Hole(h: seq<nat>, ms: seq<int>, i: nat, used: int) {
    && AllIds(h, |ms|) && Distinct(h) && i < |h|
    && ms[h[i] - 1] == used && OrderedExcept(h, ms, i) && Bridged(h, ms, i)
  }

  /** c is the smaller son of i and no greater than i. */
  predicate Chosen(h: seq<nat>, ms: seq<int>, i: nat, c: nat)
    requires AllIds(h, |ms|) && i < |h|
  {
    && 2 * i + 1 <= c <= 2 * i + 2 && c < |h| && ms[h[c] - 1] <= ms[h[i] - 1]
    && ms[h[c] - 1] <= ms[h[2 * i + 1] - 1]
    && (2 * i + 2 < |h| ==> ms[h[c] - 1] <= ms[h[2 * i + 2] - 1])
  }

  lemma SonsOf(i: nat, k: nat)
    requires k > 0
    ensures Parent(k) == i <==> k == 2 * i + 1 || k == 2 * i + 2
  {
  }

  lemma StepAt(h: seq<nat>, g: seq<nat>, ms: seq<int>, i: nat, c: nat, k: nat)
    requires AllIds(h, |ms|) && i < |h| && Chosen(h, ms, i, c) && g == Swap(h, i, c) && AllIds(g, |ms|)
    requires 0 < k < |h| && Parent(k) != c
    requires Parent(k) != i ==> Below(h, ms, k)
    requires UnderParent(h, ms, i, c)
    ensures Below(g, ms, k)
  {
    SonsOf(i, k);
    SonsOf(i, c);
  }

  lemma StepBridges(h: seq<nat>, g: seq<nat>, ms: seq<int>, i: nat, c: nat, k: nat)
    requires AllIds(h, |ms|) && i < |h| && Chosen(h, ms, i, c) && g == Swap(h, i, c) && AllIds(g, |ms|)
    requires k == 2 * c + 1 || k == 2 * c + 2
    requires k < |h| ==> Below(h, ms, k)
    ensures UnderParent(g, ms, c, k)
  {
    SonsOf(i, c);
    SonsOf(c, k);
  }

  lemma StepKeepsOrder(h: seq<nat>, g: seq<nat>, ms: seq<int>, i: nat, c: nat)
    requires AllIds(h, |ms|) && i < |h| && Chosen(h, ms, i, c) && g == Swap(h, i, c) && AllIds(g, |ms|)
    requires OrderedExcept(h, ms, i) && UnderParent(h, ms, i, c)
    ensures OrderedExcept(g, ms, c)
  {
    forall k {:trigger Below(g, ms, k)} | 0 < k < |g| && Parent(k) != c ensures Below(g, ms, k) {
      if Parent(k) != i { assert Below(h, ms, k); }
      StepAt(h, g, ms, i, c, k);
    }
  }

  lemma StepKeepsBridge(h: seq<nat>, g: seq<nat>, ms: seq<int>, i: nat, c: nat)
    requires AllIds(h, |ms|) && i < |h| && Chosen(h, ms, i, c) && g == Swap(h, i, c) && AllIds(g, |ms|)
    requires OrderedExcept(h, ms, i)
    ensures Bridged(g, ms, c)
  {
    forall k | (k == 2 * c + 1 || k == 2 * c + 2) && k < |h| ensures Below(h, ms, k) { SonsOf(c, k); }
    StepBridges(h, g, ms, i, c, 2 * c + 1);
    StepBridges(h, g, ms, i, c, 2 * c + 2);
  }

  lemma StepKeepsHole(h: seq<nat>, i: nat, c: nat, ms: seq<int>, used: int)
    requires Hole(h, ms, i, used) && Chosen(h, ms, i, c)
    ensures Hole(Swap(h, i, c), ms, c, used)
  {
    var g := Swap(h, i, c);
    StepKeepsOrder(h, g, ms, i, c);
    StepKeepsBridge(h, g, ms, i, c);
  }

  lemma HoleFilled(h: seq<nat>, i: nat, ms: seq<int>, used: int)
    requires Hole(h, ms, i, used)
    requires forall k :: 2 * i + 1 <= k <= 2 * i + 2 && k < |h| ==> ms[h[k] - 1] >= used
    ensures IsHeap(h, ms)
  {
    forall k {:trigger Below(h, ms, k)} | 0 < k < |h| ensures Below(h, ms, k) {
      SonsOf(i, k);
      if Parent(k) != i { assert Below(h, ms, k); }
    }
  }

  /** Apart from the merit of the queue in the hole, the loop reads the merits in us. */
  predicate SameElsewhere(ms: seq<int>, us: seq<int>, id: nat) {
    |ms| == |us| && forall q :: 0 <= q < |ms| && q + 1 != id ==> ms[q] == us[q]
  }

  lemma SonElsewhere(h: seq<nat>, i: nat, ms: seq<int>, us: seq<int>, k: nat)
    requires AllIds(h, |ms|) && Distinct(h) && i < k < |h| && SameElsewhere(ms, us, h[i])
    ensures ms[h[k] - 1] == us[h[k] - 1]
  {
  }

  lemma {:induction false} SiftMakesHeap(h: seq<nat>, i: nat, used: int, ms: seq<int>, us: seq<int>)
    requires Hole(h, us, i, used) && SameElsewhere(ms, us, h[i])
    ensures AllIds(Sift(h, i, used, ms), |us|) && IsHeap(Sift(h, i, used, ms), us)
    decreases |h| - i
  {
    if 2 * i + 1 < |h| {
      var c := Son(h, i, ms);
      SonElsewhere(h, i, ms, us, 2 * i + 1);
      if 2 * i + 2 < |h| { SonElsewhere(h, i, ms, us, 2 * i + 2); }
      if ms[h[c] - 1] <= used {
        StepKeepsHole(h, i, c, us, used);
        SiftMakesHeap(Swap(h, i, c), c, used, ms, us);
      } else {
        HoleFilled(h, i, us, used);
      }
    } else {
      HoleFilled(h, i, us, used);
    }
  }

  /** In a heap the root has the least merit. */
  lemma {:induction false} RootIsLeast(h: seq<nat>, ms: seq<int>, k: nat)
    requires AllIds(h, |ms|) && IsHeap(h, ms) && k < |h|
    ensures ms[h[0] - 1] <= ms[h[k] - 1]
  {
    if k > 0 {
      assert Below(h, ms, k);
      RootIsLeast(h, ms, Parent(k));
    }
  }

  /** Below a position that the loop does not visit again, nothing moves up past it. */
  lemma {:induction false} SiftKeepsAbove(h: seq<nat>, i: nat, used: int, ms: seq<int>, k: nat)
    requires AllIds(h, |ms|) && k < i && k < |h|
    ensures Sift(h, i, used, ms)[k] == h[k]
    decreases |h| - i
  {
    if 2 * i + 1 < |h| {
      var c := Son(h, i, ms);
      if ms[h[c] - 1] <= used { SiftKeepsAbove(Swap(h, i, c), c, used, ms, k); }
    }
  }

  /** When the top changes: exactly if some son of the root has no greater merit than the one used. */
  lemma TopChangesIff(h: seq<nat>, used: int, ms: seq<int>)
    requires AllIds(h, |ms|) && Distinct(h) && |h| > 0
    ensures Sift(h, 0, used, ms)[0] != h[0] <==>
      exists k :: 1 <= k <= 2 && k < |h| && ms[h[k] - 1] <= used
  {
    if |h| > 1 {
      var c := Son(h, 0, ms);
      assert Parent(1) == 0 && Parent(2) == 0;
      if ms[h[c] - 1] <= used {
        SiftKeepsAbove(Swap(h, 0, c), c, used, ms, 0);
        assert c <= 2;
      }
    }
  }

  /** The merits used in an update: the top has merit `used`. */
  function Used(h: seq<nat>, used: int, ms: seq<int>): seq<int>
    requires AllIds(h, |ms|) && |h| > 0
  {
    ms[h[0] - 1 := used]
  }

  /** The result of one update when the heap was in order below its root: again a heap, under the
      merits used, with a queue of least merit on top. */
  lemma UpdateMakesHeap(h: seq<nat>, used: int, ms: seq<int>)
    requires AllIds(h, |ms|) && Distinct(h) && |h| > 0 && OrderedExcept(h, ms, 0)
    ensures var r := Sift(h, 0, used, ms); AllIds(r, |ms|) && IsHeap(r, Used(h, used, ms))
  {
    TopIsHole(h, used, ms);
    SiftMakesHeap(h, 0, used, ms, Used(h, used, ms));
  }

  lemma TopIsHole(h: seq<nat>, used: int, ms: seq<int>)
    requires AllIds(h, |ms|) && Distinct(h) && |h| > 0 && OrderedExcept(h, ms, 0)
    ensures Hole(h, Used(h, used, ms), 0, used) && SameElsewhere(ms, Used(h, used, ms), h[0])
  {
    var us := Used(h, used, ms);
    forall k {:trigger Below(h, us, k)} | 0 < k < |h| && Parent(k) != 0 ensures Below(h, us, k) {
      assert Below(h, ms, k);
      assert h[k] != h[0] && h[Parent(k)] != h[0];
    }
  }

  /** The queue on top after the update has the least of the merits used. */
  lemma UpdateTopIsLeast(h: seq<nat>, used: int, ms: seq<int>, k: nat)
    requires AllIds(h, |ms|) && Distinct(h) && OrderedExcept(h, ms, 0) && k < |h|
    ensures var r, us := Sift(h, 0, used, ms), Used(h, used, ms);
      1 <= r[0] <= |ms| && us[r[0] - 1] <= us[h[k] - 1]
  {
    var r := Sift(h, 0, used, ms);
    UpdateMakesHeap(h, used, ms);
    SiftIsPermutation(h, 0, used, ms);
    var j := Somewhere(h, r, k);
    RootIsLeast(r, Used(h, used, ms), j);
  }

  lemma Somewhere(h: seq<nat>, r: seq<nat>, k: nat) returns (j: nat)
    requires multiset(h) == multiset(r) && k < |h|
    ensures j < |r| && r[j] == h[k]
  {
    assert h[k] in multiset(h);
    assert h[k] in r;
    j :| j < |r| && r[j] == h[k];
  }

  /** The queue that was on top sinks below ties as well: it comes to rest where its sons have greater
      merits. */
  lemma {:induction false} SinksBelowTies(h: seq<nat>, i: nat, used: int, ms: seq<int>) returns (p: nat)
    requires AllIds(h, |ms|) && Distinct(h) && i < |h|
    ensures var r := Sift(h, i, used, ms);
      && i <= p < |r| && r[p] == h[i]
      && forall k :: p < k < |r| && Parent(k) == p ==> 1 <= r[k] <= |ms| && ms[r[k] - 1] > used
    decreases |h| - i
  {
    SiftKeepsIds(h, i, used, ms);
    p := i;
    if 2 * i + 1 < |h| {
      var c := Son(h, i, ms);
      if ms[h[c] - 1] <= used { p := SinksBelowTies(Swap(h, i, c), c, used, ms); }
    }
    forall k | p < k < |h| && Parent(k) == p ensures k == 2 * p + 1 || k == 2 * p + 2 { SonsOf(p, k); }
  }

  /** A merit no smaller than any other replaces the top whenever there is another queue, and leaves
      on top a queue of least merit among the others. */
  lemma GreatestMeritLeavesTop(h: seq<nat>, used: int, ms: seq<int>, k: nat)
    requires AllIds(h, |ms|) && Distinct(h) && OrderedExcept(h, ms, 0) && 0 < k < |h|
    requires forall q :: 0 <= q < |ms| ==> ms[q] <= used
    ensures var r := Sift(h, 0, used, ms);
      r[0] != h[0] && 1 <= r[0] <= |ms| && ms[r[0] - 1] <= ms[h[k] - 1]
  {
    assert ms[h[1] - 1] <= used;
    TopChangesIff(h, used, ms);
    UpdateTopIsLeast(h, used, ms, k);
  }
}
