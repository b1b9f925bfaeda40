/**
 How requests go through the flush sequencer (daredevil/block/blk-flush.c:125-140, 190-238, 322-345,
 391-424, 435-504): where each step leads, when a flush is issued, and with which status a request
 ends. The main result, ResultsAreReported, holds over all runs of FlushRuns.
*/
module FlushOutcomes {
  import opened Seqs
  import opened Flush
  import opened FlushRuns
  import opened FlushRefs

  // ----- Single steps -----

  /** rq waits on one of the two queues. */
  predicate Queued(fq: Fq, rq: Id) { rq in fq.queue0 || rq in fq.queue1 }

  /** Where a request stands after a completion without error, given the steps it has done. */
  predicate GoesOn(fq: Fq, rq: Id, done: set<Step>) {
    && fq.Done(rq) == done
    && (if PREFLUSH !in done then Queued(fq, rq) && fq.Cur(rq) == PREFLUSH && rq !in fq.ended
        else if DATA !in done then rq in fq.inFlight && fq.Cur(rq) == DATA && rq !in fq.ended
        else if POSTFLUSH !in done then Queued(fq, rq) && fq.Cur(rq) == POSTFLUSH && rq !in fq.ended
        else EndedWith(fq, rq, OK) && !fq.Waiting(rq))
  }

  lemma MoveOnGoes(fq: Fq, rq: Id, step: Step, error: Status, now: int)
    ensures var a := MoveOn(fq, rq, step, error, now);
      && a.done == fq.done
      && (step == PREFLUSH || step == POSTFLUSH ==> Queued(a, rq) && a.ended == fq.ended)
      && (step == DATA ==> rq in a.inFlight && a.ended == fq.ended)
      && (step == DONE ==> EndedWith(a, rq, error))
  {
  }

  lemma CompleteSeqGoes(fq: Fq, rq: Id, steps: set<Step>, error: Status, now: int)
    requires Sound(fq) && rq !in fq.ended && rq !in fq.bypass
    requires fq.Done(rq) * steps == {} && Shaped(fq.Done(rq) + steps)
    ensures var g := CompleteSeq(fq, rq, steps, error, now);
      && (error == OK ==> GoesOn(g, rq, fq.Done(rq) + steps))
      && (error != OK ==> EndedWith(g, rq, error) && !g.Waiting(rq))
  {
    var f := Record(fq, rq, steps);
    var a := Advance(fq, rq, steps, error, now);
    AdvanceSound(fq, rq, steps, error, now);
    AdvanceMovesOne(fq, rq, steps, error, now);
    MoveOnGoes(f, rq, if error == OK then f.Cur(rq) else DONE, error, now);
    assert CompleteSeq(fq, rq, steps, error, now) ==
      a.(pendingIdx := KickFlush(a, now).pendingIdx, flushRq := KickFlush(a, now).flushRq);
  }

  /** How a DATA step ends: without an error the request waits for its POSTFLUSH if it still needs one,
      and else it ends well; with an error it ends with that error. */
  lemma DataOutcome(fq: Fq, rq: Id, error: Status, now: int)
    requires Inv(fq) && rq in fq.inFlight
    ensures var g := DataEndIo(fq, rq, error, now);
      && (error == OK ==> g.Done(rq) == fq.Done(rq) + {DATA})
      && (error == OK && POSTFLUSH in fq.Done(rq) ==> EndedWith(g, rq, OK))
      && (error == OK && POSTFLUSH !in fq.Done(rq) ==> Queued(g, rq) && g.Cur(rq) == POSTFLUSH && rq !in g.ended)
      && (error != OK ==> EndedWith(g, rq, error) && !g.Waiting(rq))
  {
    DataHead(fq, rq);
    CompleteSeqGoes(fq, rq, {DATA}, error, now);
  }

  /** What insertion does with a request: nothing to do ends it well at once, data alone is handed on,
      and else it starts with the first step of its policy, with just the steps of its policy left. */
  lemma InsertOutcome(fq: Fq, flags: Flags, rq: Id, info: Info, now: int)
    requires Inv(fq) && rq !in fq.ended && rq !in fq.bypass && !fq.Waiting(rq)
    requires POSTFLUSH in Policy(flags, info) ==> DATA in Policy(flags, info)
    ensures var g, policy := InsertFlush(fq, flags, rq, info, now), Policy(flags, info);
      if policy == {} then EndedWith(g, rq, OK)
      else if policy == {DATA} then rq in g.bypass && rq !in g.ended && !g.Waiting(rq)
      else GoesOn(g, rq, ACTIONS - policy)
  {
    var policy := Policy(flags, info);
    if policy != {} && policy != {DATA} {
      var f := fq.(done := fq.done[rq := {}]);
      assert Sound(f) && f.Done(rq) + (ACTIONS - policy) == ACTIONS - policy;
      CompleteSeqGoes(f, rq, ACTIONS - policy, OK, now);
    }
  }

  lemma SoundGoes(fq: Fq, rq: Id, done: set<Step>)
    requires Sound(fq) && fq.Done(rq) == done && DONE !in done
    requires if CurSeq(done) == DONE then EndedWith(fq, rq, OK) else fq.Waiting(rq)
    ensures GoesOn(fq, rq, done)
  {
  }

  lemma EndStepWaiting(fq: Fq, r: Index, rest: seq<Id>, error: Status, now: int, x: Id)
    requires WalkInv(fq, r, rest) && rest != []
    ensures var g, rq := EndStep(fq, rest[0], error, now), rest[0];
      if x != rq then g.Waiting(x) <==> fq.Waiting(x)
      else error == OK ==> GoesOn(g, rq, fq.Done(rq) + {fq.Cur(rq)})
  {
    var rq := rest[0];
    WalkHead(fq, r, rest);
    AfterFlush(fq.Done(rq));
    EndStepIsCompleteSeq(fq, rq, error, now);
    AdvanceMovesOne(fq, rq, {fq.Cur(rq)}, error, now);
    KickMoves(fq, Advance(fq, rq, {fq.Cur(rq)}, error, now), rq, error, now);
    if error == OK { CompleteSeqGoes(fq, rq, {fq.Cur(rq)}, error, now); }
  }

  /** The walk leaves every request waiting that it does not visit, and one that it visits without error
      unless it has no step left. */
  lemma {:induction false} EndAllWaiting(fq: Fq, r: Index, rest: seq<Id>, error: Status, now: int, x: Id)
    requires WalkInv(fq, r, rest)
    ensures var g := EndAll(fq, rest, error, now);
      && (x !in rest ==> (g.Waiting(x) <==> fq.Waiting(x)))
      && (x in rest && error == OK && CurSeq(fq.Done(x) + {fq.Cur(x)}) != DONE ==> g.Waiting(x))
      && (x in rest && error == OK && CurSeq(fq.Done(x) + {fq.Cur(x)}) == DONE ==> EndedWith(g, x, OK))
    decreases |rest|
  {
    if rest != [] {
      var g := EndStep(fq, rest[0], error, now);
      assert rest[0] !in rest[1..] by { assert Distinct(fq.Queue(r)); }
      EndStepWaiting(fq, r, rest, error, now, x);
      EndStepOutcome(fq, r, rest, error, now, x);
      EndStepInv(fq, r, rest, error, now);
      EndAllOutcome(g, r, rest[1..], error, now, x);
      EndAllWaiting(g, r, rest[1..], error, now, x);
    }
  }

  /** Where each waiting request goes when the last reference to its flush is dropped: without an error
      to its next step or its good end, with one to its end with that error. */
  lemma FlushOutcome(fq: Fq, error: Status, now: int, x: Id)
    requires Inv(fq) && fq.Refs() == 1 && x in fq.Running()
    ensures var g, err := FlushEndIo(fq, error, now), WalkStatus(fq, error);
      if err == OK then GoesOn(g, x, fq.Done(x) + {fq.Cur(x)}) else EndedWith(g, x, err) && !g.Waiting(x)
  {
    var f, g, err := FinishFlush(fq), FlushEndIo(fq, error, now), WalkStatus(fq, error);
    LastRefOutcome(fq, error, now, x);
    FlushEndIoInv(fq, error, now);
    FinishFlushWalks(fq);
    assert f.Done(x) == fq.Done(x);
    EndAllWaiting(f, fq.runningIdx, fq.Running(), err, now, x);
    if err == OK {
      assert fq.Waiting(x);
      AfterFlush(fq.Done(x));
      SoundGoes(g, x, fq.Done(x) + {fq.Cur(x)});
    }
  }

  // ----- When a flush is issued -----

  /** For a clock that has not gone back behind the time the first request began to wait, nor 2^63 ticks
      beyond it: a kick with requests waiting and no flush in flight issues one, unless DATA steps are
      in flight and the first request has waited less than the timeout. */
  lemma KickIssuesIff(fq: Fq, now: int)
    requires Indexed(fq) && fq.pendingIdx == fq.runningIdx && fq.Pending() != []
    requires 0 <= now - fq.pendingSince < 0x4000_0000_0000_0000
    ensures var g := KickFlush(fq, now);
      && (g.flushRq.Issued? <==> fq.inFlight == [] || now - fq.pendingSince >= FLUSH_PENDING_TIMEOUT)
      && (g.flushRq.Issued? ==> g.Running() == fq.Pending() && g.Pending() == [] && g.Refs() == 1)
      && (g.flushRq.Idle? ==> g == fq)
  {
    assert TimeBefore(now, fq.pendingSince + FLUSH_PENDING_TIMEOUT) <==>
      now - fq.pendingSince < FLUSH_PENDING_TIMEOUT by { TimeBeforeIs(now, fq.pendingSince + FLUSH_PENDING_TIMEOUT); }
  }

  lemma TimeBeforeIs(a: int, b: int)
    requires -0x8000_0000_0000_0000 <= a - b < 0x8000_0000_0000_0000
    ensures TimeBefore(a, b) <==> a < b
  {
  }

  /** A kick without waiting requests, or with a flush in flight, does nothing. */
  lemma KickWaits(fq: Fq, now: int)
    requires fq.pendingIdx != fq.runningIdx || fq.Pending() == []
    ensures KickFlush(fq, now) == fq
  {
  }

  /** The clock of the pending queue starts with its first request and then runs on. */
  lemma PendingClock(fq: Fq, rq: Id, step: Step, now: int)
    requires step == PREFLUSH || step == POSTFLUSH
    ensures MoveOn(fq, rq, step, OK, now).pendingSince == if fq.Pending() == [] then now else fq.pendingSince
    ensures MoveOn(fq, rq, step, OK, now).Pending() == Remove(fq.Pending(), rq) + [rq]
  {
  }

  // ----- The policy takes just the steps that are needed -----

  /** A request takes a step exactly if without it its submitter could be let down: data if there is any,
      a flush before it if what has completed may not be stable, and one after it if the data, once
      written, may not be. */
  lemma PolicyIsNeeded(flags: Flags, info: Info, rq: Id)
    ensures DATA in Policy(flags, info) <==> info.sectors > 0
    ensures PREFLUSH in Policy(flags, info) <==>
      info.preflush && exists dev :: DeviceInv(flags, dev) && !(dev.completed <= dev.stable)
    ensures POSTFLUSH in Policy(flags, info) <==>
      info.fua && exists dev :: DeviceInv(flags, dev) && rq !in Wrote(flags, dev, rq, info.fua).stable
    ensures Policy(flags, info) <= ACTIONS
  {
    var clean, other := Device({}, {}), Device({rq}, {});
    assert rq in other.completed;
    assert flags.wc ==> DeviceInv(flags, other) && !(other.completed <= other.stable);
    assert DeviceInv(flags, clean);
    assert flags.wc && !(flags.fua && info.fua) ==> rq !in Wrote(flags, clean, rq, info.fua).stable;
  }

  // ----- Where results come from -----

  /** The errors and successes that an event reports for requests: of a write, or of the flush that
      they wait for. */
  function Reports(w: World, e: Event): set<(Id, Status)> {
    match e
    case BypassDone(rq, error) => {(rq, error)}
    case DataDone(rq, error, _) => {(rq, error)}
    case FlushDone(error, _) => set rq | rq in w.fq.Running() :: (rq, error)
    case _ => {}
  }

  function AllReports(flags: Flags, w: World, es: seq<Event>): set<(Id, Status)>
    decreases |es|
  {
    if es == [] then {} else Reports(w, es[0]) + AllReports(flags, Apply(flags, w, es[0]), es[1..])
  }

  /** Errors come from reports: those of ended requests, and the one that is remembered for the waiters
      of a flush. */
  ghost predicate Traced(fq: Fq, rs: set<(Id, Status)>) {
    && (forall rq :: rq in fq.ended && rq in fq.result && fq.result[rq] != OK ==> (rq, fq.result[rq]) in rs)
    && (fq.rqStatus != OK ==> forall rq :: rq in fq.Running() ==> (rq, fq.rqStatus) in rs)
  }

  /** One request moves; a result it gets is its own. */
  lemma MovedTraced(fq: Fq, g: Fq, rq: Id, error: Status, rs: set<(Id, Status)>)
    requires Traced(fq, rs) && MovesOne(fq, g, rq, error) && EndedOnce(fq)
    requires error != OK ==> (rq, error) in rs
    requires g.rqStatus == fq.rqStatus && (fq.rqStatus != OK ==> g.Running() == fq.Running())
    ensures Traced(g, rs)
  {
  }

  /** A completion by a request on neither queue. */
  lemma CompleteSeqTraced(fq: Fq, rq: Id, steps: set<Step>, error: Status, now: int, rs: set<(Id, Status)>)
    requires Sound(fq) && Indexed(fq) && Traced(fq, rs) && rq !in fq.ended && rq !in fq.bypass
    requires rq !in fq.queue0 && rq !in fq.queue1 && (fq.rqStatus != OK ==> fq.flushRq != Idle)
    requires error != OK ==> (rq, error) in rs
    ensures Traced(CompleteSeq(fq, rq, steps, error, now), rs)
  {
    var a, g := Advance(fq, rq, steps, error, now), CompleteSeq(fq, rq, steps, error, now);
    AdvanceMovesOne(fq, rq, steps, error, now);
    KickMoves(fq, a, rq, error, now);
    CompleteSeqRqStatus(fq, rq, steps, error, now);
    if fq.rqStatus != OK { CompleteSeqRunning(fq, rq, steps, error, now); }
    MovedTraced(fq, g, rq, error, rs);
  }

  lemma KickMoves(fq: Fq, a: Fq, rq: Id, error: Status, now: int)
    requires MovesOne(fq, a, rq, error)
    ensures MovesOne(fq, KickFlush(a, now), rq, error)
  {
    var g := KickFlush(a, now);
    assert g == a.(pendingIdx := g.pendingIdx, flushRq := g.flushRq);
  }

  lemma InsertTraced(flags: Flags, w: World, rq: Id, inf: Info, now: int, rs: set<(Id, Status)>)
    requires WorldInv(flags, w) && Enabled(flags, w, Insert(rq, inf, now)) && Traced(w.fq, rs)
    ensures Traced(InsertFlush(w.fq, flags, rq, inf, now), rs)
  {
    var policy := Policy(flags, inf);
    if policy != {} && policy != {DATA} {
      var f := w.fq.(done := w.fq.done[rq := {}]);
      FreshSound(w, f, rq);
      CompleteSeqTraced(f, rq, ACTIONS - policy, OK, now, rs);
    }
  }

  /** The last reference: every waiter ends with the status of the walk, or without error. */
  lemma LastRefTraced(fq: Fq, error: Status, now: int, rs: set<(Id, Status)>)
    requires Inv(fq) && fq.Refs() == 1 && Traced(fq, rs)
    requires WalkStatus(fq, error) != OK ==> forall rq :: rq in fq.Running() ==> (rq, WalkStatus(fq, error)) in rs
    ensures Traced(FlushEndIo(fq, error, now), rs)
  {
    var f, l, err, g := FinishFlush(fq), fq.Running(), WalkStatus(fq, error), FlushEndIo(fq, error, now);
    FinishFlushWalks(fq);
    EndAllRqStatus(f, l, err, now);
    FlushEndIoInv(fq, error, now);
    forall x | x in g.ended && x in g.result && g.result[x] != OK ensures (x, g.result[x]) in rs {
      EndAllOutcome(f, fq.runningIdx, l, err, now, x);
    }
  }

  lemma FlushDoneTraced(flags: Flags, w: World, error: Status, now: int, rs: set<(Id, Status)>)
    requires WorldInv(flags, w) && Enabled(flags, w, FlushDone(error, now)) && Traced(w.fq, rs)
    ensures Traced(FlushEndIo(w.fq, error, now), rs + Reports(w, FlushDone(error, now)))
  {
    var all := rs + Reports(w, FlushDone(error, now));
    assert forall rq :: rq in w.fq.Running() ==> (rq, error) in all;
    assert Traced(w.fq, all);
    if w.fq.Refs() == 1 { LastRefTraced(w.fq, error, now, all); }
  }

  lemma PutTraced(flags: Flags, w: World, now: int, rs: set<(Id, Status)>)
    requires WorldInv(flags, w) && Enabled(flags, w, Put(now)) && Traced(w.fq, rs)
    ensures Traced(FlushEndIo(w.fq, OK, now), rs)
  {
    if w.fq.Refs() == 1 { LastRefTraced(w.fq, OK, now, rs); }
  }

  lemma DoneTraced(flags: Flags, w: World, e: Event, rs: set<(Id, Status)>)
    requires WorldInv(flags, w) && Enabled(flags, w, e) && Traced(w.fq, rs) && (e.DataDone? || e.BypassDone?)
    ensures Traced(Apply(flags, w, e).fq, rs + Reports(w, e))
  {
    var all := rs + Reports(w, e);
    assert (e.rq, e.error) in all && Traced(w.fq, all);
    if e.DataDone? {
      DataHead(w.fq, e.rq);
      CompleteSeqTraced(w.fq, e.rq, {DATA}, e.error, e.now, all);
    }
  }

  lemma EventTraced(flags: Flags, w: World, e: Event, rs: set<(Id, Status)>)
    requires WorldInv(flags, w) && Enabled(flags, w, e) && Traced(w.fq, rs)
    ensures Traced(Apply(flags, w, e).fq, rs + Reports(w, e))
  {
    assert !e.FlushDone? && !e.DataDone? && !e.BypassDone? ==> rs + Reports(w, e) == rs;
    match e
    case Insert(rq, inf, now) => InsertTraced(flags, w, rq, inf, now, rs);
    case DataDone(_, _, _) => DoneTraced(flags, w, e, rs);
    case BypassDone(_, _) => DoneTraced(flags, w, e, rs);
    case FlushDone(error, now) => FlushDoneTraced(flags, w, error, now, rs);
    case Put(now) => PutTraced(flags, w, now, rs);
    case _ =>
  }

  lemma {:induction false} RunTraced(flags: Flags, w: World, es: seq<Event>, v: World, rs: set<(Id, Status)>)
    requires WorldInv(flags, w) && IsRun(flags, w, es, v) && Traced(w.fq, rs)
    ensures Traced(v.fq, rs + AllReports(flags, w, es))
    decreases |es|
  {
    if es == [] {
      assert rs + {} == rs;
    } else {
      EventInv(flags, w, es[0]);
      EventTraced(flags, w, es[0], rs);
      RunTraced(flags, Apply(flags, w, es[0]), es[1..], v, rs + Reports(w, es[0]));
      assert rs + Reports(w, es[0]) + AllReports(flags, Apply(flags, w, es[0]), es[1..]) ==
        rs + AllReports(flags, w, es);
    }
  }

  /** In every run a request that ended with an error did so because the device reported that error for
      the request, or for a flush that it waited for. */
  lemma ResultsAreReported(flags: Flags, es: seq<Event>, v: World, rq: Id)
    requires IsRun(flags, Start(), es, v) && rq in v.fq.ended
    ensures rq in v.fq.result
    ensures v.fq.result[rq] != OK ==> (rq, v.fq.result[rq]) in AllReports(flags, Start(), es)
  {
    StartInv(flags);
    RunInv(flags, Start(), es, v);
    RunTraced(flags, Start(), es, v, {});
    assert {} + AllReports(flags, Start(), es) == AllReports(flags, Start(), es);
  }

  /** The device reports no error. */
  predicate Healthy(es: seq<Event>) {
    forall i :: 0 <= i < |es| ==> (es[i].BypassDone? || es[i].DataDone? || es[i].FlushDone?) ==> es[i].error == OK
  }

  lemma {:induction false} HealthyReports(flags: Flags, w: World, es: seq<Event>, r: (Id, Status))
    requires Healthy(es) && r in AllReports(flags, w, es)
    ensures r.1 == OK
    decreases |es|
  {
    if r !in Reports(w, es[0]) { HealthyReports(flags, Apply(flags, w, es[0]), es[1..], r); }
  }

  /** In every run in which the device reports no error, every request that ended did so without one. */
  lemma HealthyRunsEndWell(flags: Flags, es: seq<Event>, v: World, rq: Id)
    requires IsRun(flags, Start(), es, v) && Healthy(es) && rq in v.fq.ended
    ensures EndedWith(v.fq, rq, OK)
  {
    ResultsAreReported(flags, es, v, rq);
    if v.fq.result[rq] != OK { HealthyReports(flags, Start(), es, (rq, v.fq.result[rq])); }
  }
}
