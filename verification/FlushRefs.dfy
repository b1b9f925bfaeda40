/**
 What becomes of a failed flush while tag iterators hold references to the flush request
 (daredevil/block/blk-flush.c:261-265, daredevil/block/blk-mq-tag.c:283-295,
 daredevil/block/blk-mq.c:1644-1652). An iterator drops its reference through flush_end_io with
 status zero, and if it is not the last one, that status overwrites the error of the device.
*/
module FlushRefs {
  import opened Seqs
  import opened Flush
  import opened FlushRuns

  /** The flush in flight at the start of the run does not end in it. */
  ghost predicate KeepsFlight(flags: Flags, w: World, es: seq<Event>)
    decreases |es|
  {
    es == [] || (!(es[0].Put? && w.fq.Refs() == 1) && KeepsFlight(flags, Apply(flags, w, es[0]), es[1..]))
  }

  /** Some reference that is not the last is dropped after a failure was reported. */
  ghost predicate WipedIn(flags: Flags, w: World, es: seq<Event>)
    decreases |es|
  {
    es != [] && (Wipes(w, es[0]) || WipedIn(flags, Apply(flags, w, es[0]), es[1..]))
  }

  /** No event but the end of the flush changes which requests wait for it. */
  lemma EventKeepsRunning(flags: Flags, w: World, e: Event)
    requires WorldInv(flags, w) && Enabled(flags, w, e) && w.sent.Answered? && !(e.Put? && w.fq.Refs() == 1)
    ensures Apply(flags, w, e).fq.Running() == w.fq.Running()
  {
    match e
    case Insert(rq, inf, now) =>
      var policy := Policy(flags, inf);
      if policy != {} && policy != {DATA} {
        var f := w.fq.(done := w.fq.done[rq := {}]);
        FreshSound(w, f, rq);
        CompleteSeqRunning(f, rq, ACTIONS - policy, OK, now);
      }
    case DataDone(rq, error, now) => CompleteSeqRunning(w.fq, rq, {DATA}, error, now);
    case _ =>
  }

  /** After a failing answer the error is remembered until a reference that is not the last is dropped. */
  lemma {:induction false} ErrorIsRemembered(flags: Flags, w: World, es: seq<Event>, v: World)
    requires WorldInv(flags, w) && IsRun(flags, w, es, v) && KeepsFlight(flags, w, es)
    requires w.sent.Answered? && w.sent.error != OK
    ensures WorldInv(flags, v) && v.fq.Running() == w.fq.Running()
    ensures v.sent == w.sent.(overwritten := w.sent.overwritten || WipedIn(flags, w, es))
    decreases |es|
  {
    if es != [] {
      EventInv(flags, w, es[0]);
      EventKeepsRunning(flags, w, es[0]);
      ErrorIsRemembered(flags, Apply(flags, w, es[0]), es[1..], v);
    }
  }

  /** The exact condition. A flush fails while others hold references; when the last one is dropped,
      each request that waited for the flush is given it as a success if and only if a reference that
      was not the last had been dropped since the answer, and else it ends with the error. */
  lemma FailureForgivenIff(flags: Flags, pre: seq<Event>, w: World, error: Status, now: int,
                           es: seq<Event>, v: World, later: int, x: Id)
    requires IsRun(flags, Start(), pre, w) && Enabled(flags, w, FlushDone(error, now))
    requires error != OK && w.fq.Refs() > 1 && x in w.fq.Running()
    requires var a := Apply(flags, w, FlushDone(error, now)); IsRun(flags, a, es, v) && KeepsFlight(flags, a, es)
    requires v.fq.Refs() == 1
    ensures Enabled(flags, v, Put(later))
    ensures var wiped := WipedIn(flags, Apply(flags, w, FlushDone(error, now)), es);
      var u := Apply(flags, v, Put(later));
      && (GotFlush(v.fq, u.fq, x, OK) <==> wiped)
      && (GotFlush(v.fq, u.fq, x, error) <==> !wiped)
      && (x in u.forgiven <==> wiped || x in v.forgiven)
  {
    var a := Apply(flags, w, FlushDone(error, now));
    StartInv(flags);
    RunInv(flags, Start(), pre, w);
    EventInv(flags, w, FlushDone(error, now));
    ErrorIsRemembered(flags, a, es, v);
    LastRefOutcome(v.fq, OK, later, x);
  }

  /** Without such references a failed flush fails every request that waited for it. */
  lemma FailureWithoutIterators(flags: Flags, pre: seq<Event>, w: World, error: Status, now: int, x: Id)
    requires IsRun(flags, Start(), pre, w) && Enabled(flags, w, FlushDone(error, now))
    requires error != OK && w.fq.Refs() == 1 && x in w.fq.Running()
    ensures GotFlush(w.fq, Apply(flags, w, FlushDone(error, now)).fq, x, error)
  {
    StartInv(flags);
    RunInv(flags, Start(), pre, w);
    LastRefOutcome(w.fq, error, now, x);
  }

  /** A failure that has not been overwritten. */
  predicate Remembers(w: World) { w.sent.Answered? && w.sent.error != OK ==> !w.sent.overwritten }

  lemma EventForgivesNobody(flags: Flags, w: World, e: Event)
    requires Enabled(flags, w, e) && !Wipes(w, e) && Remembers(w)
    ensures Apply(flags, w, e).forgiven == w.forgiven && Remembers(Apply(flags, w, e))
  {
  }

  lemma {:induction false} NothingForgiven(flags: Flags, w: World, es: seq<Event>, v: World)
    requires IsRun(flags, w, es, v) && !WipedIn(flags, w, es) && Remembers(w)
    ensures v.forgiven == w.forgiven
    decreases |es|
  {
    if es != [] {
      EventForgivesNobody(flags, w, es[0]);
      NothingForgiven(flags, Apply(flags, w, es[0]), es[1..], v);
    }
  }

  /** In every run in which no such reference is dropped after a failing answer, all inserted requests
      get what was promised. */
  lemma CarefulRunsAreDurable(flags: Flags, es: seq<Event>, v: World)
    requires IsRun(flags, Start(), es, v) && !WipedIn(flags, Start(), es)
    ensures v.info.Keys == v.before.Keys
    ensures forall rq :: rq in v.info ==> Promised(v, rq)
  {
    NothingForgiven(flags, Start(), es, v);
    RunsAreDurable(flags, es, v);
  }

  // ----- A failed flush taken for a success -----

  const PREFLUSH_ONLY := Info(0, true, false)

  /** Two iterators hold references when the flush of request 1 fails with status 5. */
  const ANSWERED: seq<Event> := [FlushDone(5, 0), Put(0), Put(0)]
  const FAILED_RUN: seq<Event> :=
    [Write(7)] + ([Insert(1, PREFLUSH_ONLY, 0)] + ([Get] + ([Get] + ([Dispatch] + ANSWERED))))

  lemma RunStep(flags: Flags, w: World, e: Event, es: seq<Event>, v: World)
    requires Enabled(flags, w, e) && IsRun(flags, Apply(flags, w, e), es, v)
    ensures IsRun(flags, w, [e] + es, v)
  {
  }

  /** The world once request 1 waits for its flush, which has `refs` references. */
  function Waiting(refs: nat, status: Status, sent: Sent): World {
    World(EMPTY.(queue0 := [1], pendingIdx := 1, flushRq := Issued(1, refs), rqStatus := status,
                 done := map[1 := {DATA, POSTFLUSH}]),
          Device({7}, {}), sent, map[1 := PREFLUSH_ONLY], map[1 := {7}], {})
  }

  lemma InsertOne()
    ensures Apply(CACHED, Start(), Write(7)) == World(EMPTY, Device({7}, {}), Queued, map[], map[], {})
    ensures Apply(CACHED, World(EMPTY, Device({7}, {}), Queued, map[], map[], {}), Insert(1, PREFLUSH_ONLY, 0)) ==
      Waiting(1, OK, Queued)
  {
    assert Policy(CACHED, PREFLUSH_ONLY) == {PREFLUSH};
    assert {} + (ACTIONS - {PREFLUSH}) == {DATA, POSTFLUSH};
    assert Record(EMPTY.(done := map[1 := {}]), 1, {DATA, POSTFLUSH}) == EMPTY.(done := map[1 := {DATA, POSTFLUSH}]);
  }

  lemma AnswerSteps(v: World)
    requires v == Apply(CACHED, Waiting(1, OK, Answered({7}, 5, true)), Put(0))
    ensures IsRun(CACHED, Waiting(3, OK, AtDevice({7})), ANSWERED, v)
  {
    RunStep(CACHED, Waiting(1, OK, Answered({7}, 5, true)), Put(0), [], v);
    RunStep(CACHED, Waiting(2, 5, Answered({7}, 5, false)), Put(0), [Put(0)], v);
    RunStep(CACHED, Waiting(3, OK, AtDevice({7})), FlushDone(5, 0), [Put(0), Put(0)], v);
  }

  lemma IteratorSteps(es: seq<Event>, v: World)
    requires IsRun(CACHED, Waiting(3, OK, AtDevice({7})), es, v)
    ensures IsRun(CACHED, Waiting(1, OK, Queued), [Get] + ([Get] + ([Dispatch] + es)), v)
  {
    RunStep(CACHED, Waiting(3, OK, Queued), Dispatch, es, v);
    RunStep(CACHED, Waiting(2, OK, Queued), Get, [Dispatch] + es, v);
    RunStep(CACHED, Waiting(1, OK, Queued), Get, [Get] + ([Dispatch] + es), v);
  }

  lemma InsertSteps(es: seq<Event>, v: World)
    requires IsRun(CACHED, Waiting(1, OK, Queued), es, v)
    ensures IsRun(CACHED, Start(), [Write(7)] + ([Insert(1, PREFLUSH_ONLY, 0)] + es), v)
  {
    InsertOne();
    RunStep(CACHED, Apply(CACHED, Start(), Write(7)), Insert(1, PREFLUSH_ONLY, 0), es, v);
    RunStep(CACHED, Start(), Write(7), [Insert(1, PREFLUSH_ONLY, 0)] + es, v);
  }

  lemma FailedRunIsRun(v: World)
    requires v == Apply(CACHED, Waiting(1, OK, Answered({7}, 5, true)), Put(0))
    ensures IsRun(CACHED, Start(), FAILED_RUN, v)
  {
    AnswerSteps(v);
    IteratorSteps(ANSWERED, v);
    InsertSteps([Get] + ([Get] + ([Dispatch] + ANSWERED)), v);
  }

  /** A request with all steps recorded that is not normal traffic has ended. */
  lemma AllStepsEnd(flags: Flags, v: World, rq: Id)
    requires WorldInv(flags, v) && rq in v.info && Policy(flags, v.info[rq]) != {DATA} && v.fq.Done(rq) == ACTIONS
    ensures rq in v.fq.ended
  {
  }

  /** The last reference is dropped and the wiped error is gone. */
  lemma LastPut(v: World)
    requires v == Apply(CACHED, Waiting(1, OK, Answered({7}, 5, true)), Put(0))
    ensures v.fq.Done(1) == ACTIONS && (1 in v.fq.ended ==> EndedWith(v.fq, 1, OK))
    ensures v.dev == Device({7}, {}) && v.info == map[1 := PREFLUSH_ONLY] && v.before == map[1 := {7}]
    ensures 1 in v.forgiven
  {
    var last := Waiting(1, OK, Answered({7}, 5, true));
    assert last.fq.Running() == [1];
    LastRefOutcome(last.fq, OK, 0, 1);
    assert {DATA, POSTFLUSH} + {PREFLUSH} == ACTIONS;
  }

  /** The run ends in a state in which request 1 has ended without error although its PREFLUSH failed:
      write 7, complete before it was inserted, is not stable. */
  lemma FailedFlushTakenForSuccess() returns (v: World)
    ensures IsRun(CACHED, Start(), FAILED_RUN, v)
    ensures EndedWith(v.fq, 1, OK) && 1 in v.info && 1 in v.before && v.info[1].preflush
    ensures 7 in v.before[1] && 7 !in v.dev.stable && 1 in v.forgiven
  {
    v := Apply(CACHED, Waiting(1, OK, Answered({7}, 5, true)), Put(0));
    FailedRunIsRun(v);
    StartInv(CACHED);
    RunInv(CACHED, Start(), FAILED_RUN, v);
    LastPut(v);
    assert PREFLUSH in Policy(CACHED, PREFLUSH_ONLY);
    AllStepsEnd(CACHED, v, 1);
  }
}
