/**
 Which queue a recommendation answers with (daredevil/block/blk-blex.c:1090-1118): what the call found
 on top of the heap of its group, and then of the heap of the completion queue found there. Holds in
 all interleavings of module Recommend; for a call that runs alone it fixes the answer.
*/
module RecommendAnswers {
  import opened Seqs
  import opened Options
  import opened Partition
  import opened Regulators
  import opened Recommend
  import H = Heaps

  // ----- In all interleavings -----

  predicate Begins(e: Event, c: nat) { !e.Go? && e.c == c }

  /** In state t call c is about to look at heap id, which has q on top. */
  predicate Looking(t: State, c: nat, id: HeapId, q: nat) {
    && c in t.calls && (t.calls[c].Peek? || t.calls[c].PeekNsq?) && HeapFor(t.calls[c]) == id
    && id in t.heaps && t.heaps[id].top == q
  }

  /** Since call c began, it has looked at heap id when that had q on top. */
  ghost predicate Saw(g: Config, s: State, es: seq<Event>, c: nat, id: HeapId, q: nat)
    requires Sound(g)
    decreases |es|
  {
    es != [] &&
    var pre, e := es[..|es| - 1], es[|es| - 1];
    && !Begins(e, c)
    && (Saw(g, s, pre, c, id, q) || (e.Go? && e.c == c && Looking(Run(g, s, pre), c, id, q)))
  }

  /** The answer q was on top of the heap of its completion queue when the call looked, if that has several
      submission queues, and the completion queue on top of the heap of the group. */
  ghost predicate Answered(g: Config, s: State, es: seq<Event>, c: nat, prio: nat, ncq: nat, q: nat)
    requires Sound(g)
  {
    && Saw(g, s, es, c, OfGroup(prio), ncq)
    && (if CqNrNsqs(ncq, g.max, g.nr) > 1 then Saw(g, s, es, c, OfCq(ncq), q) else q == ncq)
  }

  /** What the looks of call c up to now were. */
  ghost predicate Looked(g: Config, s: State, es: seq<Event>, c: nat, pc: Pc)
    requires Sound(g)
  {
    match pc
    case Peek(_, _) => true
    case Upd(j, _) =>
      (j.id.OfGroup? ==> j.id.prio == j.prio) &&
      (j.got.Some? ==>
        && Saw(g, s, es, c, j.id, j.got.value)
        && (j.id.OfCq? ==> CqNrNsqs(j.id.cq, g.max, g.nr) > 1 && Saw(g, s, es, c, OfGroup(j.prio), j.id.cq)))
      && (j.got.None? ==> j.id.OfGroup?)
    case PeekNsq(prio, ncq, _) => CqNrNsqs(ncq, g.max, g.nr) > 1 && Saw(g, s, es, c, OfGroup(prio), ncq)
    case Done(prio, q) => exists ncq: nat :: Answered(g, s, es, c, prio, ncq, q)
  }

  lemma SawLater(g: Config, s: State, es: seq<Event>, e: Event, c: nat, id: HeapId, q: nat)
    requires Sound(g) && !Begins(e, c) && Saw(g, s, es, c, id, q)
    ensures Saw(g, s, es + [e], c, id, q)
  {
    assert (es + [e])[..|es|] == es;
  }

  lemma SawNow(g: Config, s: State, es: seq<Event>, e: Event, c: nat, id: HeapId, q: nat)
    requires Sound(g) && e.Go? && e.c == c && Looking(Run(g, s, es), c, id, q)
    ensures Saw(g, s, es + [e], c, id, q)
  {
    assert (es + [e])[..|es|] == es;
  }

  /** Looks stay made. */
  lemma LookedLater(g: Config, s: State, es: seq<Event>, e: Event, c: nat, pc: Pc)
    requires Sound(g) && !Begins(e, c) && Looked(g, s, es, c, pc)
    ensures Looked(g, s, es + [e], c, pc)
  {
    match pc
    case Peek(_, _) =>
    case Upd(j, _) =>
      if j.got.Some? {
        SawLater(g, s, es, e, c, j.id, j.got.value);
        if j.id.OfCq? { SawLater(g, s, es, e, c, OfGroup(j.prio), j.id.cq); }
      }
    case PeekNsq(prio, ncq, _) => SawLater(g, s, es, e, c, OfGroup(prio), ncq);
    case Done(prio, q) =>
      var ncq: nat :| Answered(g, s, es, c, prio, ncq, q);
      SawLater(g, s, es, e, c, OfGroup(prio), ncq);
      if CqNrNsqs(ncq, g.max, g.nr) > 1 { SawLater(g, s, es, e, c, OfCq(ncq), q); }
      assert Answered(g, s, es + [e], c, prio, ncq, q);
  }

  /** When an update returns, the call has what it needs for its next step. */
  lemma AfterLooked(g: Config, s: State, es: seq<Event>, c: nat, j: Job, ph: Phase)
    requires Sound(g) && Looked(g, s, es, c, Upd(j, ph))
    ensures Looked(g, s, es, c, After(g, j))
  {
    if j.got.Some? {
      var q := j.got.value;
      if j.id.OfCq? {
        assert Answered(g, s, es, c, j.prio, j.id.cq, q);
      } else if CqNrNsqs(q, g.max, g.nr) <= 1 {
        assert Answered(g, s, es, c, j.prio, q, q);
      }
    }
  }

  lemma GoLooked(g: Config, s: State, es: seq<Event>, c: nat, uses: nat, choice: Choice)
    requires Sound(g) && c in Run(g, s, es).calls && Looked(g, s, es, c, Run(g, s, es).calls[c])
    requires HeapFor(Run(g, s, es).calls[c]) in Run(g, s, es).heaps
    ensures var t := Run(g, s, es);
      Looked(g, s, es + [Go(c, uses, choice)], c, GoOn(g, t.heaps[HeapFor(t.calls[c])], c, t.calls[c], uses, choice).1)
  {
    var t, e := Run(g, s, es), Go(c, uses, choice);
    var pc := t.calls[c];
    var h := t.heaps[HeapFor(pc)];
    LookedLater(g, s, es, e, c, pc);
    match pc
    case Peek(prio, _) => SawNow(g, s, es, e, c, OfGroup(prio), h.top);
    case Upd(j, ph) =>
      if Step(h, c, ph, uses, choice, g.mru).1.None? { AfterLooked(g, s, es + [e], c, j, ph); }
    case PeekNsq(prio, ncq, _) =>
      SawNow(g, s, es, e, c, OfCq(ncq), h.top);
      assert Saw(g, s, es + [e], c, OfGroup(prio), ncq);
    case Done(_, _) =>
  }

  lemma EventLooked(g: Config, s: State, es: seq<Event>, e: Event, c: nat)
    requires Sound(g) && Inv(g, Run(g, s, es)) && Enabled(g, Run(g, s, es), e)
    requires forall d :: d in Run(g, s, es).calls ==> Looked(g, s, es, d, Run(g, s, es).calls[d])
    requires c in Apply(g, Run(g, s, es), e).calls
    ensures Looked(g, s, es + [e], c, Apply(g, Run(g, s, es), e).calls[c])
  {
    var t := Run(g, s, es);
    if e.c == c {
      if e.Go? {
        assert CallOk(g, t, c);
        GoLooked(g, s, es, c, e.uses, e.choice);
      }
    } else {
      LookedLater(g, s, es, e, c, t.calls[c]);
    }
  }

  ghost predicate AllLooked(g: Config, s: State, es: seq<Event>)
    requires Sound(g)
  {
    forall c :: c in Run(g, s, es).calls ==> Looked(g, s, es, c, Run(g, s, es).calls[c])
  }

  lemma NextLooked(g: Config, s: State, es: seq<Event>, e: Event)
    requires Sound(g) && Inv(g, Run(g, s, es)) && Enabled(g, Run(g, s, es), e) && AllLooked(g, s, es)
    ensures AllLooked(g, s, es + [e])
  {
    assert (es + [e])[..|es|] == es;
    assert Run(g, s, es + [e]) == Apply(g, Run(g, s, es), e);
    forall c | c in Apply(g, Run(g, s, es), e).calls
      ensures Looked(g, s, es + [e], c, Apply(g, Run(g, s, es), e).calls[c])
    {
      EventLooked(g, s, es, e, c);
    }
  }

  lemma {:induction false} RunLooked(g: Config, s: State, es: seq<Event>)
    requires Sound(g) && Initial(g, s) && IsRun(g, s, es)
    ensures AllLooked(g, s, es)
  {
    if es != [] {
      var pre := es[..|es| - 1];
      RunLooked(g, s, pre);
      RunKeepsInv(g, s, pre);
      NextLooked(g, s, pre, es[|es| - 1]);
      assert pre + [es[|es| - 1]] == es;
    }
  }

  /** In every interleaving, since a call began it has looked at the heap of its group and found some
      completion queue there; if that has several submission queues, the answer is what the call found on
      top of the heap of that completion queue, and else the completion queue itself. */
  lemma AnswersWereOnTop(g: Config, s: State, es: seq<Event>, c: nat) returns (ncq: nat)
    requires Sound(g) && Initial(g, s) && IsRun(g, s, es)
    requires c in Run(g, s, es).calls && Run(g, s, es).calls[c].Done?
    ensures Answered(g, s, es, c, Run(g, s, es).calls[c].prio, ncq, Run(g, s, es).calls[c].nsq)
  {
    RunLooked(g, s, es);
    var pc := Run(g, s, es).calls[c];
    assert Looked(g, s, es, c, pc);
    ncq :| Answered(g, s, es, c, pc.prio, ncq, pc.nsq);
  }

  // ----- A call that runs alone -----

  /** What blk_blex_peek_recommend gives in state s. */
  function Peeked(g: Config, s: State, prio: nat): nat
    requires Sound(g) && OfGroup(prio) in s.heaps
  {
    var n := s.heaps[OfGroup(prio)].top;
    if CqNrNsqs(n, g.max, g.nr) > 1 && OfCq(n) in s.heaps then s.heaps[OfCq(n)].top else n
  }

  predicate Alone(es: seq<Event>, c: nat) { forall i :: 0 <= i < |es| ==> es[i].Go? && es[i].c == c }

  /** How far call c, alone since state s, has come in state t. */
  predicate OnItsWay(g: Config, s: State, prio: nat, t: State, pc: Pc)
    requires Sound(g) && OfGroup(prio) in s.heaps
  {
    var n := s.heaps[OfGroup(prio)].top;
    var several := CqNrNsqs(n, g.max, g.nr) > 1;
    && t.heaps.Keys == s.heaps.Keys && (several ==> OfCq(n) in s.heaps)
    && match pc
       case Peek(p, _) => p == prio && t.heaps == s.heaps
       case Upd(j, _) => j.prio == prio && j.got.Some? &&
         (if j.id.OfGroup? then
            j.id.prio == prio && j.got.value == n && (several ==> t.heaps[OfCq(n)] == s.heaps[OfCq(n)])
          else several && j.id.cq == n && j.got.value == s.heaps[OfCq(n)].top)
       case PeekNsq(p, m, _) => p == prio && m == n && several && t.heaps[OfCq(n)] == s.heaps[OfCq(n)]
       case Done(p, q) => p == prio && q == Peeked(g, s, prio)
  }

  lemma AloneStep(g: Config, s: State, prio: nat, t: State, c: nat, uses: nat, choice: Choice)
    requires Sound(g) && OfGroup(prio) in s.heaps && c in t.calls && OnItsWay(g, s, prio, t, t.calls[c])
    ensures var u := Apply(g, t, Go(c, uses, choice)); c in u.calls && OnItsWay(g, s, prio, u, u.calls[c])
  {
    var pc := t.calls[c];
    if HeapFor(pc) in t.heaps {
      var (h, next) := GoOn(g, t.heaps[HeapFor(pc)], c, pc, uses, choice);
      assert Apply(g, t, Go(c, uses, choice)) == State(t.heaps[HeapFor(pc) := h], t.calls[c := next]);
    }
  }

  lemma {:induction false} AloneRun(g: Config, s: State, prio: nat, c: nat, es: seq<Event>)
    requires Sound(g) && OfGroup(prio) in s.heaps && c in s.calls && OnItsWay(g, s, prio, s, s.calls[c])
    requires Alone(es, c)
    ensures var t := Run(g, s, es); c in t.calls && OnItsWay(g, s, prio, t, t.calls[c])
  {
    if es != [] {
      var pre, e := es[..|es| - 1], es[|es| - 1];
      AloneRun(g, s, prio, c, pre);
      AloneStep(g, s, prio, Run(g, s, pre), c, e.uses, e.choice);
    }
  }

  /** From any state of any run, a recommendation that then runs alone can only end with the queue that
      blk_blex_peek_recommend gives in that state. */
  lemma AloneGetsPeeked(g: Config, s: State, c: nat, prio: nat, roundRobin: bool, es: seq<Event>)
    requires Sound(g) && Inv(g, s) && Enabled(g, s, Recommend(c, prio, roundRobin)) && Alone(es, c)
    ensures OfGroup(prio) in s.heaps
    ensures var n := s.heaps[OfGroup(prio)].top;
      && (CqNrNsqs(n, g.max, g.nr) > 1 ==> OfCq(n) in s.heaps)
      && var t := Run(g, Apply(g, s, Recommend(c, prio, roundRobin)), es);
         c in t.calls && (t.calls[c].Done? ==>
           t.calls[c].prio == prio &&
           t.calls[c].nsq == if CqNrNsqs(n, g.max, g.nr) > 1 then s.heaps[OfCq(n)].top else n)
  {
    PeekedHasPrio(g, s, s, prio);
    var b := Apply(g, s, Recommend(c, prio, roundRobin));
    assert OnItsWay(g, b, prio, b, b.calls[c]);
    AloneRun(g, b, prio, c, es);
  }

  // ----- Every call ends -----

  /** A bound on the steps that a call has left, whatever the others do. */
  function StepsLeft(g: Config, pc: Pc): nat {
    match pc
    case Peek(_, _) => 2 * g.max + 16
    case Upd(j, ph) => PhaseLeft(g, ph) +
      (if j.got.None? then 2 * g.max + 16 else if j.id.OfGroup? then g.max + 8 else 0)
    case PeekNsq(_, _, _) => g.max + 8
    case Done(_, _) => 0
  }

  function PhaseLeft(g: Config, ph: Phase): nat {
    match ph
    case Sub => g.max + 6
    case Try => g.max + 5
    case Sift(i, _) => 4 + (if i < g.max then g.max - i else 0)
    case Publish(_) => 3
    case Unlock(_) => 2
    case Resume => 1
  }

  lemma HeapFits(g: Config, id: HeapId, h: HeapSt)
    requires Sound(g) && Exists(g, id) && HeapOk(h, IdsOf(g, id))
    ensures |h.bin| <= g.max
  {
    assert |h.bin| == |multiset(h.bin)| == |multiset(IdsOf(g, id))| == |IdsOf(g, id)|;
    match id
    case OfGroup(p) => GroupSizes(p, g.nr);
    case OfCq(cq) => QueueInItsBlock(cq, g.max, g.nr);
  }

  /** Every step of a call that has not ended brings it closer to its end, in all interleavings: no call
      waits for another, and every lock is released after a bounded number of its holder's steps. */
  lemma StepsDecrease(g: Config, s: State, c: nat, uses: nat, choice: Choice)
    requires Sound(g) && Inv(g, s) && Enabled(g, s, Go(c, uses, choice))
    ensures var t := Apply(g, s, Go(c, uses, choice));
      && StepsLeft(g, t.calls[c]) < StepsLeft(g, s.calls[c])
      && forall d :: d in s.calls && d != c ==> d in t.calls && t.calls[d] == s.calls[d]
  {
    assert CallOk(g, s, c);
    var pc := s.calls[c];
    HeapFits(g, HeapFor(pc), s.heaps[HeapFor(pc)]);
    GoDecreases(g, s.heaps[HeapFor(pc)], c, pc, uses, choice);
  }

  lemma GoDecreases(g: Config, h: HeapSt, c: nat, pc: Pc, uses: nat, choice: Choice)
    requires Sound(g) && !pc.Done? && |h.bin| <= g.max && h.bin != []
    requires pc.Upd? && pc.ph.Sift? ==> pc.ph.i < |h.bin|
    ensures StepsLeft(g, GoOn(g, h, c, pc, uses, choice).1) < StepsLeft(g, pc)
  {
  }

  /** One more step of a call that is alone. */
  lemma OneMore(g: Config, s: State, c: nat, es: seq<Event>, e: Event)
    requires Sound(g) && IsRun(g, s, es) && Alone(es, c) && Inv(g, Run(g, s, es))
    requires e == Go(c, 0, Left) && Enabled(g, Run(g, s, es), e)
    ensures IsRun(g, s, es + [e]) && Alone(es + [e], c) && Run(g, s, es + [e]) == Apply(g, Run(g, s, es), e)
    ensures Inv(g, Run(g, s, es + [e])) && c in Run(g, s, es + [e]).calls
  {
    assert (es + [e])[..|es|] == es;
    EventKeepsInv(g, Run(g, s, es), e);
  }

  /** A call in any reachable state can go on alone to its end. */
  lemma {:induction false} CanFinish(g: Config, s: State, c: nat, es: seq<Event>) returns (fs: seq<Event>)
    requires Sound(g) && IsRun(g, s, es) && Alone(es, c) && Inv(g, Run(g, s, es)) && c in Run(g, s, es).calls
    ensures IsRun(g, s, fs) && Alone(fs, c) && c in Run(g, s, fs).calls && Run(g, s, fs).calls[c].Done?
    decreases StepsLeft(g, Run(g, s, es).calls[c])
  {
    fs := es;
    if !Run(g, s, es).calls[c].Done? {
      var e := Go(c, 0, Left);
      OneMore(g, s, c, es, e);
      StepsDecrease(g, Run(g, s, es), c, 0, Left);
      fs := CanFinish(g, s, c, es + [e]);
    }
  }

  // ----- A round-robin call moves both heaps on -----

  /** A forced update since heap h0, by a call that is alone. */
  predicate Moving(h0: HeapSt, h: HeapSt, ph: Phase) {
    && |h.bin| == |h0.bin|
    && match ph
       case Sub => h == h0
       case Try => h.top == h0.top && h.holder.None?
       case Sift(_, was) => was == h0.top
       case Publish(was) => was == h0.top
       case Unlock(was) => was == h0.top
       case Resume => |h.bin| > 1 ==> h.top != h0.top
  }

  lemma MovingStep(h0: HeapSt, h: HeapSt, c: nat, ph: Phase, uses: nat, choice: Choice, mru: int)
    requires Moving(h0, h, ph) && PhaseOk(h, c, true, ph) && Possible(h, true, ph, choice) && h.bin != []
    requires h0.holder.None? && h0.mru <= uses
    ensures var (h', next) := Step(h, c, ph, uses, choice, mru);
      && (next.Some? ==> Moving(h0, h', next.value))
      && (next.None? ==> |h'.bin| == |h0.bin| && (|h'.bin| > 1 ==> h'.top != h0.top))
  {
  }

  predicate Moved(h0: HeapSt, h: HeapSt) { |h.bin| == |h0.bin| && (|h.bin| > 1 ==> h.top != h0.top) }

  /** How far a round-robin call, alone since state s, has come. */
  predicate OnItsRound(g: Config, s: State, prio: nat, t: State, pc: Pc)
    requires Sound(g) && OfGroup(prio) in s.heaps
  {
    var gid, n := OfGroup(prio), s.heaps[OfGroup(prio)].top;
    && OnItsWay(g, s, prio, t, pc)
    && match pc
       case Peek(_, force) => force
       case Upd(j, ph) => j.force &&
         (if j.id.OfGroup? then Moving(s.heaps[gid], t.heaps[gid], ph)
          else Moved(s.heaps[gid], t.heaps[gid]) && Moving(s.heaps[j.id], t.heaps[j.id], ph))
       case PeekNsq(_, _, force) => force && Moved(s.heaps[gid], t.heaps[gid])
       case Done(_, _) =>
         Moved(s.heaps[gid], t.heaps[gid]) &&
         (CqNrNsqs(n, g.max, g.nr) > 1 ==> Moved(s.heaps[OfCq(n)], t.heaps[OfCq(n)]))
  }

  /** The heap is free to be updated, and due after so many uses. */
  predicate Ready(h: HeapSt, uses: nat) { h.holder.None? && h.mru <= uses }

  lemma RoundStep(g: Config, s: State, prio: nat, t: State, c: nat, uses: nat, choice: Choice)
    requires Sound(g) && OfGroup(prio) in s.heaps && Inv(g, t) && Enabled(g, t, Go(c, uses, choice))
    requires OnItsRound(g, s, prio, t, t.calls[c])
    requires Ready(s.heaps[OfGroup(prio)], uses)
    requires OfCq(s.heaps[OfGroup(prio)].top) in s.heaps ==> Ready(s.heaps[OfCq(s.heaps[OfGroup(prio)].top)], uses)
    ensures var u := Apply(g, t, Go(c, uses, choice)); c in u.calls && OnItsRound(g, s, prio, u, u.calls[c])
  {
    assert CallOk(g, t, c);
    AloneStep(g, s, prio, t, c, uses, choice);
    var pc := t.calls[c];
    var h := t.heaps[HeapFor(pc)];
    assert HeapOk(h, IdsOf(g, HeapFor(pc)));
    if pc.Upd? { MovingStep(s.heaps[pc.job.id], h, c, pc.ph, uses, choice, g.mru); }
  }

  lemma {:induction false} RoundRun(g: Config, s: State, prio: nat, c: nat, es: seq<Event>)
    requires Sound(g) && OfGroup(prio) in s.heaps && c in s.calls && Inv(g, s)
    requires OnItsRound(g, s, prio, s, s.calls[c]) && IsRun(g, s, es) && Alone(es, c)
    requires forall i :: 0 <= i < |es| ==> Ready(s.heaps[OfGroup(prio)], es[i].uses)
    requires OfCq(s.heaps[OfGroup(prio)].top) in s.heaps ==>
      forall i :: 0 <= i < |es| ==> Ready(s.heaps[OfCq(s.heaps[OfGroup(prio)].top)], es[i].uses)
    ensures var t := Run(g, s, es); Inv(g, t) && c in t.calls && OnItsRound(g, s, prio, t, t.calls[c])
  {
    if es != [] {
      var pre, e := es[..|es| - 1], es[|es| - 1];
      RoundRun(g, s, prio, c, pre);
      EventKeepsInv(g, Run(g, s, pre), e);
      RoundStep(g, s, prio, Run(g, s, pre), c, e.uses, e.choice);
    }
  }

  /** A round-robin recommendation that runs alone, with both heaps free and the uses it takes enough for
      an update, leaves another queue on top of each heap that it looked at, if there is another. */
  lemma RoundRobinMovesOn(g: Config, s: State, c: nat, prio: nat, es: seq<Event>)
    requires Sound(g) && Inv(g, s) && Enabled(g, s, Recommend(c, prio, true))
    requires var b := Apply(g, s, Recommend(c, prio, true)); IsRun(g, b, es) && Alone(es, c)
    requires OfGroup(prio) in s.heaps && forall i :: 0 <= i < |es| ==> Ready(s.heaps[OfGroup(prio)], es[i].uses)
    requires OfCq(s.heaps[OfGroup(prio)].top) in s.heaps ==>
      forall i :: 0 <= i < |es| ==> Ready(s.heaps[OfCq(s.heaps[OfGroup(prio)].top)], es[i].uses)
    ensures var t, n := Run(g, Apply(g, s, Recommend(c, prio, true)), es), s.heaps[OfGroup(prio)].top;
      && c in t.calls && OfGroup(prio) in t.heaps
      && (t.calls[c].Done? ==>
            && Moved(s.heaps[OfGroup(prio)], t.heaps[OfGroup(prio)])
            && (CqNrNsqs(n, g.max, g.nr) > 1 ==>
                  OfCq(n) in s.heaps && OfCq(n) in t.heaps && Moved(s.heaps[OfCq(n)], t.heaps[OfCq(n)])))
  {
    var b := Apply(g, s, Recommend(c, prio, true));
    PeekedHasPrio(g, s, s, prio);
    EventKeepsInv(g, s, Recommend(c, prio, true));
    assert OnItsRound(g, b, prio, b, b.calls[c]);
    RoundRun(g, b, prio, c, es);
  }

  // ----- One update with the merits of one moment -----

  /** The steps of a whole update by a call that is alone, with the choices that the merits make. */
  function Drive(g: Config, h: HeapSt, c: nat, ph: Phase, uses: nat, used: int, ms: seq<int>): HeapSt
    requires Sound(g) && H.AllIds(h.bin, |ms|) && |h.bin| <= g.max && h.bin != []
    requires ph.Sift? ==> ph.i < |h.bin|
    decreases PhaseLeft(g, ph)
  {
    var choice := if ph.Sift? then Chosen(h.bin, ph.i, used, ms) else Left;
    var (h', next) := Step(h, c, ph, uses, choice, g.mru);
    if next.None? then h' else Drive(g, h', c, next.value, uses, used, ms)
  }

  lemma {:induction false} DriveSifts(g: Config, h: HeapSt, c: nat, i: nat, was: nat,
                                      uses: nat, used: int, ms: seq<int>)
    requires Sound(g) && H.AllIds(h.bin, |ms|) && |h.bin| <= g.max && i < |h.bin|
    requires h.top == was
    ensures var r := H.Sift(h.bin, i, used, ms);
      Drive(g, h, c, Sift(i, was), uses, used, ms) == HeapSt(r, r[0], g.mru, None)
    decreases |h.bin| - i
  {
    var choice := Chosen(h.bin, i, used, ms);
    if choice == Stop {
      DriveEnds(g, h, c, was, uses, used, ms);
    } else {
      var son := H.Son(h.bin, i, ms);
      DriveSifts(g, h.(bin := H.Swap(h.bin, i, son)), c, son, was, uses, used, ms);
    }
  }

  lemma DriveEnds(g: Config, h: HeapSt, c: nat, was: nat, uses: nat, used: int, ms: seq<int>)
    requires Sound(g) && H.AllIds(h.bin, |ms|) && |h.bin| <= g.max && h.bin != [] && h.top == was
    ensures Drive(g, h, c, Publish(was), uses, used, ms) == HeapSt(h.bin, h.bin[0], g.mru, None)
  {
    var u := h.(top := h.bin[0]);
    assert Step(h, c, Publish(was), uses, Left, g.mru) == (u, Some(Unlock(was)));
    var v := u.(holder := None);
    assert Step(u, c, Unlock(was), uses, Left, g.mru) == (v, Some(Resume));
    assert Drive(g, v, c, Resume, uses, used, ms) == v.(mru := g.mru);
  }

  /** The steps of an update do what PrioArray.Update does to a heap: only count the uses if it is not yet
      due or locked; and else sift the top, publish the root, and start counting afresh. */
  lemma DriveIsUpdate(g: Config, h: HeapSt, c: nat, uses: nat, used: int, ms: seq<int>)
    requires Sound(g) && H.AllIds(h.bin, |ms|) && |h.bin| <= g.max && h.bin != []
    ensures Drive(g, h, c, Sub, uses, used, ms) ==
      if h.mru - uses > 0 || h.holder.Some? then h.(mru := h.mru - uses)
      else var r := H.Sift(h.bin, 0, used, ms); HeapSt(r, r[0], g.mru, None)
  {
    var u := h.(mru := h.mru - uses);
    if u.mru <= 0 {
      assert Step(h, c, Sub, uses, Left, g.mru) == (u, Some(Try));
      if h.holder.None? {
        var v := u.(holder := Some(c));
        assert Step(u, c, Try, uses, Left, g.mru) == (v, Some(Sift(0, u.top)));
        DriveSifts(g, v, c, 0, u.top, uses, used, ms);
      }
    }
  }
}
