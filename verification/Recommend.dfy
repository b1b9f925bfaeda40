/**
 Recommending a submission queue while other CPUs do the same (daredevil/block/blk-blex.c:1004-1118,
 636-642, daredevil/include/linux/blk-blex.h:531-550). Every call is a sequence of steps, each one
 atomic operation, one locked assignment, or one round of the sift-down loop. Merits change at any
 time, so a round may pick either son or stop, except that a forced infinite merit never stops.
*/
module Recommend {
  import opened Options
  import opened Partition
  import opened Regulators
  import opened Seqs
  import H = Heaps

  datatype Config = Config(max: nat, nr: nat, mru: int)

  predicate Sound(g: Config) { Sane(g.max, g.nr) && 2 <= g.nr }

  /** The heap of a group, or of a completion queue with several submission queues. */
  datatype HeapId = OfGroup(prio: nat) | OfCq(cq: nat)

  datatype HeapSt = HeapSt(bin: seq<nat>, top: nat, mru: int, holder: Option<nat>)

  predicate Exists(g: Config, h: HeapId)
    requires Sound(g)
  {
    match h
    case OfGroup(p) => p < LEVELS
    case OfCq(cq) => 1 <= cq <= g.max && HasCq(cq, g.max, g.nr) && CqNrNsqs(cq, g.max, g.nr) > 1
  }

  /** The ids a heap is set up with. */
  function IdsOf(g: Config, h: HeapId): (s: seq<nat>)
    requires Sound(g) && Exists(g, h)
    ensures |s| > 0
  {
    match h
    case OfGroup(p) => GroupSizes(p, g.nr); GroupIds(p, g.max, g.nr)
    case OfCq(cq) => Consecutive(cq, CqNrNsqs(cq, g.max, g.nr))
  }

  function PrioOfHeap(g: Config, h: HeapId): nat
    requires Sound(g) && Exists(g, h)
  {
    match h
    case OfGroup(p) => p
    case OfCq(cq) => PrioOf(cq, g.max, g.nr)
  }

  // ----- One update of one heap -----

  /** Where an update stands; `was` is the top found when the lock was taken. */
  datatype Phase = Sub | Try | Sift(i: nat, was: nat) | Publish(was: nat) | Unlock(was: nat) | Resume

  datatype Choice = Left | Right | Stop

  predicate Locked(ph: Phase) { ph.Sift? || ph.Publish? || ph.Unlock? }

  function Decided(b: bool, ph: Phase): Option<Phase> { if b then Some(ph) else None }

  /** One step of an update by call c; without a next phase the update returns. */
  function Step(h: HeapSt, c: nat, ph: Phase, uses: nat, choice: Choice, mru: int): (HeapSt, Option<Phase>) {
    match ph
    case Sub => (h.(mru := h.mru - uses), Decided(h.mru - uses <= 0, Try))
    case Try => if h.holder.Some? then (h, None) else (h.(holder := Some(c)), Some(Sift(0, h.top)))
    case Sift(i, was) =>
      if 2 * i + 1 >= |h.bin| || choice == Stop then (h, Some(Publish(was)))
      else
        var son := if choice == Right && 2 * i + 2 < |h.bin| then 2 * i + 2 else 2 * i + 1;
        (h.(bin := H.Swap(h.bin, i, son)), Some(Sift(son, was)))
    case Publish(was) =>
      if h.bin == [] then (h, None)
      else (if h.bin[0] != was then h.(top := h.bin[0]) else h, Some(Unlock(was)))
    case Unlock(_) => (h.(holder := None), Some(Resume))
    case Resume => (h.(mru := mru), None)
  }

  /** A forced infinite merit never stops the loop. */
  predicate Possible(h: HeapSt, force: bool, ph: Phase, choice: Choice) {
    ph.Sift? && force && 2 * ph.i + 1 < |h.bin| ==> choice != Stop
  }

  ghost predicate HeapOk(h: HeapSt, ids: seq<nat>) {
    && h.bin != [] && Distinct(h.bin) && multiset(h.bin) == multiset(ids)
    && h.top in h.bin && (h.holder.None? ==> h.top == h.bin[0])
  }

  /** What call c, in phase ph, may rely on. */
  predicate PhaseOk(h: HeapSt, c: nat, force: bool, ph: Phase) {
    && (Locked(ph) ==> h.holder == Some(c))
    && match ph
       case Sift(i, was) => i < |h.bin| && h.top == was &&
         (if i == 0 then h.bin[0] == was else h.bin[0] != was)
       case Publish(was) => h.bin != [] && h.top == was && (force && |h.bin| > 1 ==> h.bin[0] != was)
       case Unlock(was) => h.bin != [] && h.top == h.bin[0] && (force && |h.bin| > 1 ==> h.top != was)
       case _ => true
  }

  /** A round of the loop that swaps. */
  lemma SwapKeepsHeap(h: HeapSt, ids: seq<nat>, c: nat, force: bool, i: nat, son: nat, was: nat)
    requires HeapOk(h, ids) && PhaseOk(h, c, force, Sift(i, was)) && i < son < |h.bin|
    ensures var g := h.(bin := H.Swap(h.bin, i, son)); HeapOk(g, ids) && PhaseOk(g, c, force, Sift(son, was))
  {
    H.SwapIsPermutation(h.bin, i, son);
    SameMembers(h.bin, H.Swap(h.bin, i, son));
  }

  lemma StepKeepsHeap(h: HeapSt, ids: seq<nat>, c: nat, force: bool, ph: Phase, uses: nat, choice: Choice, mru: int)
    requires HeapOk(h, ids) && PhaseOk(h, c, force, ph) && Possible(h, force, ph, choice)
    ensures var (h', next) := Step(h, c, ph, uses, choice, mru);
      HeapOk(h', ids) && (next.Some? ==> PhaseOk(h', c, force, next.value))
  {
    if ph.Sift? && 2 * ph.i + 1 < |h.bin| && choice != Stop {
      var son := if choice == Right && 2 * ph.i + 2 < |h.bin| then 2 * ph.i + 2 else 2 * ph.i + 1;
      SwapKeepsHeap(h, ids, c, force, ph.i, son, ph.was);
    }
  }

  lemma SameMembers(a: seq<nat>, b: seq<nat>)
    requires multiset(a) == multiset(b)
    ensures forall x :: x in a ==> x in b
  {
    forall x | x in a ensures x in b { assert x in multiset(a); }
  }

  /** A step does not disturb an update by another call on the same heap. */
  lemma StepKeepsOther(h: HeapSt, c: nat, force: bool, ph: Phase, uses: nat, choice: Choice, mru: int,
                       other: nat, otherForce: bool, otherPh: Phase)
    requires c != other && PhaseOk(h, c, force, ph) && PhaseOk(h, other, otherForce, otherPh)
    ensures PhaseOk(Step(h, c, ph, uses, choice, mru).0, other, otherForce, otherPh)
  {
  }

  // ----- Calls -----

  /** An update on behalf of a call: got is the queue peeked before it; the update of an exhausted
      queue's group comes ahead of the recommendation and has got nothing yet. */
  datatype Job = Job(prio: nat, id: HeapId, got: Option<nat>, force: bool)

  datatype Pc = Peek(prio: nat, force: bool) | Upd(job: Job, ph: Phase) | PeekNsq(prio: nat, ncq: nat, force: bool)
              | Done(prio: nat, nsq: nat)

  datatype State = State(heaps: map<HeapId, HeapSt>, calls: map<nat, Pc>)

  datatype Event =
    | Recommend(c: nat, prio: nat, roundRobin: bool)
    | NoTag(c: nat, prio: nat)
    | Go(c: nat, uses: nat, choice: Choice)

  /** What a call does once its update has returned. */
  function After(g: Config, j: Job): Pc
    requires Sound(g)
  {
    match j.got
    case None => Peek(j.prio, false)
    case Some(q) =>
      if j.id.OfGroup? && CqNrNsqs(q, g.max, g.nr) > 1 then PeekNsq(j.prio, q, j.force) else Done(j.prio, q)
  }

  function Then(g: Config, j: Job, next: Option<Phase>): Pc
    requires Sound(g)
  {
    if next.Some? then Upd(j, next.value) else After(g, j)
  }

  predicate Enabled(g: Config, s: State, e: Event)
    requires Sound(g)
  {
    match e
    case Recommend(c, prio, _) => prio < LEVELS && (c in s.calls ==> s.calls[c].Done?)
    case NoTag(c, prio) => prio < LEVELS && (c in s.calls ==> s.calls[c].Done?)
    case Go(c, uses, choice) =>
      && c in s.calls && !s.calls[c].Done?
      && (s.calls[c].Upd? && s.calls[c].job.id in s.heaps ==>
            Possible(s.heaps[s.calls[c].job.id], s.calls[c].job.force, s.calls[c].ph, choice))
  }

  /** The heap a call's next step works on. */
  function HeapFor(pc: Pc): HeapId {
    match pc
    case Peek(prio, _) => OfGroup(prio)
    case Upd(j, _) => j.id
    case PeekNsq(_, ncq, _) => OfCq(ncq)
    case Done(prio, _) => OfGroup(prio)
  }

  function GoOn(g: Config, h: HeapSt, c: nat, pc: Pc, uses: nat, choice: Choice): (HeapSt, Pc)
    requires Sound(g)
  {
    match pc
    case Peek(prio, force) => (h, Upd(Job(prio, OfGroup(prio), Some(h.top), force), Sub))
    case Upd(j, ph) =>
      var (h', next) := Step(h, c, ph, uses, choice, g.mru);
      (h', Then(g, j, next))
    case PeekNsq(prio, ncq, force) => (h, Upd(Job(prio, OfCq(ncq), Some(h.top), force), Sub))
    case Done(_, _) => (h, pc)
  }

  function Apply(g: Config, s: State, e: Event): State
    requires Sound(g)
  {
    match e
    case Recommend(c, prio, rr) => s.(calls := s.calls[c := Peek(prio, rr)])
    case NoTag(c, prio) => s.(calls := s.calls[c := Upd(Job(prio, OfGroup(prio), None, true), Sub)])
    case Go(c, uses, choice) =>
      if c in s.calls && HeapFor(s.calls[c]) in s.heaps then
        var id := HeapFor(s.calls[c]);
        var (h, pc) := GoOn(g, s.heaps[id], c, s.calls[c], uses, choice);
        State(s.heaps[id := h], s.calls[c := pc])
      else s
  }

  // ----- The invariant -----

  /** What a call knows that no other call can change. */
  predicate Knows(g: Config, pc: Pc)
    requires Sound(g)
  {
    match pc
    case Peek(prio, _) => prio < LEVELS
    case Upd(j, _) =>
      && Exists(g, j.id) && PrioOfHeap(g, j.id) == j.prio
      && (if j.got.Some? then j.got.value in IdsOf(g, j.id) else j.id.OfGroup?)
    case PeekNsq(prio, ncq, _) => Exists(g, OfCq(ncq)) && PrioOfHeap(g, OfCq(ncq)) == prio
    case Done(prio, nsq) => prio < LEVELS && InGroup(nsq, prio, g.max, g.nr)
  }

  predicate CallOk(g: Config, s: State, c: nat)
    requires Sound(g) && c in s.calls
  {
    && Knows(g, s.calls[c])
    && HeapFor(s.calls[c]) in s.heaps
    && (s.calls[c].Upd? ==> PhaseOk(s.heaps[s.calls[c].job.id], c, s.calls[c].job.force, s.calls[c].ph))
  }

  /** The lock of a heap is held only by a call that is at work under it. */
  predicate HeldRightly(s: State, id: HeapId)
    requires id in s.heaps
  {
    var h := s.heaps[id].holder;
    h.Some? ==> h.value in s.calls && s.calls[h.value].Upd? && s.calls[h.value].job.id == id &&
                Locked(s.calls[h.value].ph)
  }

  ghost predicate Inv(g: Config, s: State)
    requires Sound(g)
  {
    && (forall id :: id in s.heaps <==> Exists(g, id))
    && (forall id :: id in s.heaps ==> HeapOk(s.heaps[id], IdsOf(g, id)))
    && (forall id :: id in s.heaps ==> HeldRightly(s, id))
    && (forall c :: c in s.calls ==> CallOk(g, s, c))
  }

  // ----- Groups and completion queues -----

  /** The heap of a group holds completion queues of the group; that of a completion queue holds its
      submission queues. */
  lemma MembersHavePrio(g: Config, h: HeapId, q: nat)
    requires Sound(g) && Exists(g, h) && q in IdsOf(g, h)
    ensures 1 <= q <= g.max && PrioOf(q, g.max, g.nr) == PrioOfHeap(g, h)
    ensures h.OfGroup? ==> HasCq(q, g.max, g.nr)
    ensures h.OfCq? ==> GetCqid(q, g.max, g.nr) == h.cq
  {
    match h {
      case OfGroup(p) =>
        GroupSizes(p, g.nr);
        var i :| 0 <= i < |IdsOf(g, h)| && IdsOf(g, h)[i] == q;
        IndexInverse(FirstOf(p, g.nr) + i, 1, g.max, g.nr);
        CqidBounds(FirstOf(p, g.nr) + i, g.max, g.nr);
      case OfCq(cq) =>
        QueueInItsBlock(cq, g.max, g.nr);
        var k := CqidToIndex(cq, g.max, g.nr);
        IndexInverse(k, q, g.max, g.nr);
    }
  }

  lemma AfterKnows(g: Config, j: Job)
    requires Sound(g) && Knows(g, Upd(j, Resume))
    ensures Knows(g, After(g, j))
  {
    if j.got.Some? {
      MembersHavePrio(g, j.id, j.got.value);
      if j.id.OfCq? { QueueInItsBlock(j.got.value, g.max, g.nr); }
    }
  }

  lemma KnowsItsHeap(g: Config, pc: Pc)
    requires Sound(g) && Knows(g, pc)
    ensures Exists(g, HeapFor(pc))
  {
  }

  // ----- Every event keeps the invariant -----

  /** The acting call and its heap. */
  lemma GoOnOk(g: Config, h: HeapSt, c: nat, pc: Pc, uses: nat, choice: Choice)
    requires Sound(g) && Knows(g, pc) && Exists(g, HeapFor(pc)) && HeapOk(h, IdsOf(g, HeapFor(pc)))
    requires pc.Upd? ==> PhaseOk(h, c, pc.job.force, pc.ph) && Possible(h, pc.job.force, pc.ph, choice)
    ensures var (h', pc') := GoOn(g, h, c, pc, uses, choice);
      && HeapOk(h', IdsOf(g, HeapFor(pc))) && Knows(g, pc')
      && (pc'.Upd? ==> pc'.job.id == HeapFor(pc) && PhaseOk(h', c, pc'.job.force, pc'.ph))
  {
    match pc
    case Upd(j, ph) =>
      StepKeepsHeap(h, IdsOf(g, j.id), c, j.force, ph, uses, choice, g.mru);
      if Step(h, c, ph, uses, choice, g.mru).1.None? { AfterKnows(g, j); }
    case _ => SameMembers(h.bin, IdsOf(g, HeapFor(pc)));
  }

  /** Whether the acting call holds the lock afterwards, and that no other call's hold changes. */
  lemma GoOnHolds(g: Config, h: HeapSt, c: nat, pc: Pc, uses: nat, choice: Choice)
    requires Sound(g) && (pc.Upd? ==> PhaseOk(h, c, pc.job.force, pc.ph))
    requires h.holder == Some(c) ==> pc.Upd? && Locked(pc.ph)
    ensures var (h', pc') := GoOn(g, h, c, pc, uses, choice);
      && (h'.holder == Some(c) ==> pc'.Upd? && Locked(pc'.ph) && pc'.job.id == HeapFor(pc))
      && (h'.holder.Some? && h'.holder != Some(c) ==> h'.holder == h.holder)
  {
  }

  lemma GoActs(g: Config, s: State, c: nat, uses: nat, choice: Choice)
    requires Sound(g) && Enabled(g, s, Go(c, uses, choice)) && CallOk(g, s, c)
    requires Exists(g, HeapFor(s.calls[c])) && HeapOk(s.heaps[HeapFor(s.calls[c])], IdsOf(g, HeapFor(s.calls[c])))
    ensures var t, id := Apply(g, s, Go(c, uses, choice)), HeapFor(s.calls[c]);
      && t.calls.Keys == s.calls.Keys && t.heaps.Keys == s.heaps.Keys
      && id in t.heaps && HeapOk(t.heaps[id], IdsOf(g, id))
      && Knows(g, t.calls[c])
      && (t.calls[c].Upd? ==> t.calls[c].job.id == id && PhaseOk(t.heaps[id], c, t.calls[c].job.force, t.calls[c].ph))
  {
    GoOnOk(g, s.heaps[HeapFor(s.calls[c])], c, s.calls[c], uses, choice);
  }

  lemma GoKeepsHeld(g: Config, s: State, c: nat, uses: nat, choice: Choice, i: HeapId)
    requires Sound(g) && c in s.calls && CallOk(g, s, c) && i in s.heaps
    requires HeldRightly(s, i) && HeldRightly(s, HeapFor(s.calls[c]))
    ensures HeldRightly(Apply(g, s, Go(c, uses, choice)), i)
  {
    GoOnHolds(g, s.heaps[HeapFor(s.calls[c])], c, s.calls[c], uses, choice);
  }

  lemma GoCalls(g: Config, s: State, c: nat, uses: nat, choice: Choice, d: nat)
    requires Sound(g) && Inv(g, s) && Enabled(g, s, Go(c, uses, choice)) && d in s.calls
    ensures var t := Apply(g, s, Go(c, uses, choice));
      t.calls.Keys == s.calls.Keys && CallOk(g, t, d)
  {
    assert CallOk(g, s, c);
    if d == c {
      GoActs(g, s, c, uses, choice);
      KnowsItsHeap(g, Apply(g, s, Go(c, uses, choice)).calls[c]);
    } else {
      OthersKept(g, s, c, d, uses, choice);
    }
  }

  lemma GoHeaps(g: Config, s: State, c: nat, uses: nat, choice: Choice, i: HeapId)
    requires Sound(g) && Inv(g, s) && Enabled(g, s, Go(c, uses, choice)) && i in s.heaps
    ensures var t := Apply(g, s, Go(c, uses, choice));
      t.heaps.Keys == s.heaps.Keys && HeapOk(t.heaps[i], IdsOf(g, i)) && HeldRightly(t, i)
  {
    assert CallOk(g, s, c);
    GoActs(g, s, c, uses, choice);
    GoKeepsHeld(g, s, c, uses, choice, i);
  }

  lemma GoKeepsInv(g: Config, s: State, c: nat, uses: nat, choice: Choice)
    requires Sound(g) && Inv(g, s) && Enabled(g, s, Go(c, uses, choice))
    ensures Inv(g, Apply(g, s, Go(c, uses, choice)))
  {
    var t := Apply(g, s, Go(c, uses, choice));
    GoCalls(g, s, c, uses, choice, c);
    forall d | d in t.calls ensures CallOk(g, t, d) { GoCalls(g, s, c, uses, choice, d); }
    assert CallOk(g, s, c);
    GoHeaps(g, s, c, uses, choice, HeapFor(s.calls[c]));
    forall i | i in s.heaps ensures HeapOk(t.heaps[i], IdsOf(g, i)) && HeldRightly(t, i) {
      GoHeaps(g, s, c, uses, choice, i);
    }
  }

  lemma OthersKept(g: Config, s: State, c: nat, d: nat, uses: nat, choice: Choice)
    requires Sound(g) && c in s.calls && d in s.calls && c != d && CallOk(g, s, c) && CallOk(g, s, d)
    ensures CallOk(g, Apply(g, s, Go(c, uses, choice)), d)
  {
    if s.calls[c].Upd? && s.calls[d].Upd? && s.calls[c].job.id == s.calls[d].job.id {
      var (a, b) := (s.calls[c], s.calls[d]);
      StepKeepsOther(s.heaps[a.job.id], c, a.job.force, a.ph, uses, choice, g.mru, d, b.job.force, b.ph);
    }
  }

  lemma EventKeepsInv(g: Config, s: State, e: Event)
    requires Sound(g) && Inv(g, s) && Enabled(g, s, e)
    ensures Inv(g, Apply(g, s, e))
  {
    if e.Go? {
      GoKeepsInv(g, s, e.c, e.uses, e.choice);
    } else {
      BeginKeepsInv(g, s, e.c, if e.Recommend? then Peek(e.prio, e.roundRobin)
                               else Upd(Job(e.prio, OfGroup(e.prio), None, true), Sub));
    }
  }

  lemma BeginKeepsInv(g: Config, s: State, c: nat, pc: Pc)
    requires Sound(g) && Inv(g, s) && (c in s.calls ==> s.calls[c].Done?)
    requires Knows(g, pc) && (pc.Upd? ==> pc.ph == Sub)
    ensures Inv(g, s.(calls := s.calls[c := pc]))
  {
    var t := s.(calls := s.calls[c := pc]);
    KnowsItsHeap(g, pc);
    forall d | d in t.calls ensures CallOk(g, t, d) {
      if d != c { assert CallOk(g, s, d); }
    }
    forall i | i in t.heaps ensures HeldRightly(t, i) {
      assert HeldRightly(s, i);
    }
  }

  // ----- Runs -----

  /** The state that Regulator.Init leaves. */
  ghost predicate Initial(g: Config, s: State)
    requires Sound(g)
  {
    && s.calls == map[]
    && (forall id :: id in s.heaps <==> Exists(g, id))
    && forall id :: id in s.heaps ==> s.heaps[id] == HeapSt(IdsOf(g, id), IdsOf(g, id)[0], g.mru, None)
  }

  function Run(g: Config, s: State, es: seq<Event>): State
    requires Sound(g)
  {
    if es == [] then s else Apply(g, Run(g, s, es[..|es| - 1]), es[|es| - 1])
  }

  predicate IsRun(g: Config, s: State, es: seq<Event>)
    requires Sound(g)
  {
    es == [] || (IsRun(g, s, es[..|es| - 1]) && Enabled(g, Run(g, s, es[..|es| - 1]), es[|es| - 1]))
  }

  lemma IdsAreUnique(g: Config, h: HeapId)
    requires Sound(g) && Exists(g, h)
    ensures Distinct(IdsOf(g, h))
  {
    if h.OfGroup? {
      GroupSizes(h.prio, g.nr);
      var s, first := IdsOf(g, h), FirstOf(h.prio, g.nr);
      forall j, k | 0 <= j < k < |s| ensures s[j] != s[k] {
        BoundsGrow(first + j, first + k, g.max, g.nr);
      }
    }
  }

  lemma {:induction false} RunKeepsInv(g: Config, s: State, es: seq<Event>)
    requires Sound(g) && Initial(g, s) && IsRun(g, s, es)
    ensures Inv(g, Run(g, s, es))
  {
    if es == [] {
      forall id | id in s.heaps ensures HeapOk(s.heaps[id], IdsOf(g, id)) { IdsAreUnique(g, id); }
    } else {
      RunKeepsInv(g, s, es[..|es| - 1]);
      EventKeepsInv(g, Run(g, s, es[..|es| - 1]), es[|es| - 1]);
    }
  }

  /** In every interleaving, a recommended queue has the priority asked for, and its completion queue
      lies in the group of that priority. */
  lemma RecommendedHasPrio(g: Config, s: State, es: seq<Event>, c: nat)
    requires Sound(g) && Initial(g, s) && IsRun(g, s, es)
    requires c in Run(g, s, es).calls && Run(g, s, es).calls[c].Done?
    ensures var (prio, q) := (Run(g, s, es).calls[c].prio, Run(g, s, es).calls[c].nsq);
      prio < LEVELS && InGroup(q, prio, g.max, g.nr) && InGroup(GetCqid(q, g.max, g.nr), prio, g.max, g.nr)
  {
    RunKeepsInv(g, s, es);
    assert CallOk(g, Run(g, s, es), c);
    var q := Run(g, s, es).calls[c].nsq;
    GroupsSplit(q, 0, g.max, g.nr);
    QueueInItsBlock(q, g.max, g.nr);
  }

  /** Only one call at a time is at work under the lock of a heap. */
  lemma OneSifter(g: Config, s: State, es: seq<Event>, c: nat, d: nat)
    requires Sound(g) && Initial(g, s) && IsRun(g, s, es)
    requires var cs := Run(g, s, es).calls;
      && c in cs && d in cs && cs[c].Upd? && cs[d].Upd? && cs[c].job.id == cs[d].job.id
      && Locked(cs[c].ph) && Locked(cs[d].ph)
    ensures c == d
  {
    RunKeepsInv(g, s, es);
    assert CallOk(g, Run(g, s, es), c) && CallOk(g, Run(g, s, es), d);
  }

  /** No update loses or doubles a queue, and a heap whose lock is free publishes its root. */
  lemma HeapsStayWhole(g: Config, s: State, es: seq<Event>, id: HeapId)
    requires Sound(g) && Initial(g, s) && IsRun(g, s, es) && Exists(g, id)
    ensures id in Run(g, s, es).heaps
    ensures var h := Run(g, s, es).heaps[id];
      && multiset(h.bin) == multiset(IdsOf(g, id)) && h.bin != [] && h.top in IdsOf(g, id)
      && (h.holder.None? ==> h.top == h.bin[0])
  {
    RunKeepsInv(g, s, es);
    var h := Run(g, s, es).heaps[id];
    assert HeapOk(h, IdsOf(g, id));
    SameMembers(h.bin, IdsOf(g, id));
  }

  /** A forced update of a heap with several queues, once it is about to unlock, has replaced the top
      that it found. */
  lemma ForcedUpdateMovesOn(g: Config, s: State, es: seq<Event>, c: nat)
    requires Sound(g) && Initial(g, s) && IsRun(g, s, es)
    requires c in Run(g, s, es).calls && Run(g, s, es).calls[c].Upd?
    requires Run(g, s, es).calls[c].job.force && Run(g, s, es).calls[c].ph.Unlock?
    ensures var (pc, t) := (Run(g, s, es).calls[c], Run(g, s, es));
      pc.job.id in t.heaps && (|t.heaps[pc.job.id].bin| > 1 ==> t.heaps[pc.job.id].top != pc.ph.was)
  {
    RunKeepsInv(g, s, es);
    assert CallOk(g, Run(g, s, es), c);
  }

  /** blk_blex_peek_recommend, whose two looks may lie in different states of a run. */
  lemma PeekedHasPrio(g: Config, s: State, t: State, prio: nat)
    requires Sound(g) && Inv(g, s) && Inv(g, t) && prio < LEVELS
    ensures OfGroup(prio) in s.heaps
    ensures var ncq := s.heaps[OfGroup(prio)].top;
      && InGroup(ncq, prio, g.max, g.nr)
      && (CqNrNsqs(ncq, g.max, g.nr) > 1 ==>
            OfCq(ncq) in t.heaps && InGroup(t.heaps[OfCq(ncq)].top, prio, g.max, g.nr))
  {
    var h := s.heaps[OfGroup(prio)];
    assert HeapOk(h, IdsOf(g, OfGroup(prio)));
    SameMembers(h.bin, IdsOf(g, OfGroup(prio)));
    MembersHavePrio(g, OfGroup(prio), h.top);
    if CqNrNsqs(h.top, g.max, g.nr) > 1 {
      var k := t.heaps[OfCq(h.top)];
      assert HeapOk(k, IdsOf(g, OfCq(h.top)));
      SameMembers(k.bin, IdsOf(g, OfCq(h.top)));
      MembersHavePrio(g, OfCq(h.top), k.top);
    }
  }

  // ----- Steps with the merits of one moment -----

  /** The choice that the merits make in one round. */
  function Chosen(bin: seq<nat>, i: nat, used: int, ms: seq<int>): Choice
    requires H.AllIds(bin, |ms|)
  {
    if 2 * i + 1 >= |bin| then Stop
    else
      var c := H.Son(bin, i, ms);
      if ms[bin[c] - 1] > used then Stop else if c == 2 * i + 1 then Left else Right
  }

  /** The rounds of the loop up to the point where the top is published. */
  function Rounds(h: HeapSt, c: nat, ph: Phase, used: int, ms: seq<int>, mru: int): HeapSt
    requires H.AllIds(h.bin, |ms|)
    decreases if ph.Sift? then 1 + |h.bin| + (if ph.i < |h.bin| then |h.bin| - ph.i else 0) else 0
  {
    if !ph.Sift? then h
    else
      var (h', next) := Step(h, c, ph, 0, Chosen(h.bin, ph.i, used, ms), mru);
      if next.Some? then Rounds(h', c, next.value, used, ms, mru) else h'
  }

  /** If no merit changes meanwhile, the rounds do what the update of a priority array does, and a
      merit no smaller than any other makes only choices open to a forced update. */
  lemma {:induction false} RoundsSift(h: HeapSt, c: nat, i: nat, was: nat, used: int, ms: seq<int>, mru: int)
    requires H.AllIds(h.bin, |ms|)
    ensures Rounds(h, c, Sift(i, was), used, ms, mru) == h.(bin := H.Sift(h.bin, i, used, ms))
    ensures (forall q :: 0 <= q < |ms| ==> ms[q] <= used) ==>
      Possible(h, true, Sift(i, was), Chosen(h.bin, i, used, ms))
    decreases |h.bin| - i
  {
    var choice := Chosen(h.bin, i, used, ms);
    if choice != Stop {
      var son := H.Son(h.bin, i, ms);
      assert Step(h, c, Sift(i, was), 0, choice, mru) == (h.(bin := H.Swap(h.bin, i, son)), Some(Sift(son, was)));
      RoundsSift(h.(bin := H.Swap(h.bin, i, son)), c, son, was, used, ms, mru);
    }
  }
}
