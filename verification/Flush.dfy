/**
 The flush sequencer of the block layer (daredevil/block/blk-flush.c): requests that carry
 PREFLUSH or FUA are split into PREFLUSH, DATA and POSTFLUSH steps, and the flush steps of
 waiting requests share device flushes through two alternating queues.

 `Fq` is the state of one struct blk_flush_queue as a value and the functions below are its
 transitions. The class FlushQueue holds the same fields and updates them in place; each of
 its methods is proved to perform the transition of the same name.
*/
module Flush {
  import opened Seqs

  type Id = nat

  /** The REQ_FSEQ_* bits. A mask of them is a set of steps. */
  datatype Step = PREFLUSH | DATA | POSTFLUSH | DONE

  const ACTIONS: set<Step> := {PREFLUSH, DATA, POSTFLUSH}

  /** A block-layer status code, zero for success. */
  type Status = nat
  const OK: Status := 0

  /** What blk_insert_flush reads of a new request, before it rewrites the flags. */
  datatype Info = Info(sectors: nat, preflush: bool, fua: bool)

  /** Queue flags: a volatile write cache, and native support for FUA writes. */
  datatype Flags = Flags(wc: bool, fua: bool)

  /** The shared flush request: idle, or issued under the tag of `owner`, with a reference count.
      Completion owns one reference; tag iterators take and drop others at any time. */
  datatype FlushRq = Idle | Issued(owner: Id, refs: nat)

  type Index = i: int | 0 <= i < 2

  datatype Fq = Fq(
    queue0: seq<Id>, queue1: seq<Id>,      // flush_queue[2]
    inFlight: seq<Id>,                     // flush_data_in_flight
    pendingIdx: Index, runningIdx: Index,
    pendingSince: int,                     // jiffies
    rqStatus: Status,
    flushRq: FlushRq,
    done: map<Id, set<Step>>,              // rq->flush.seq of every sequenced request
    bypass: seq<Id>,                       // handed on for normal execution
    ended: seq<Id>, result: map<Id, Status>,  // calls of blk_mq_end_request, in order
    bug: bool                              // a BUG_ON has fired
  ) {
    function Queue(i: Index): seq<Id> { if i == 0 then queue0 else queue1 }

    function WithQueue(i: Index, l: seq<Id>): Fq {
      if i == 0 then this.(queue0 := l) else this.(queue1 := l)
    }

    function Pending(): seq<Id> { Queue(pendingIdx) }

    function Done(rq: Id): set<Step> { if rq in done then done[rq] else {} }

    /** blk_flush_cur_seq: the lowest step not yet recorded. */
    function Cur(rq: Id): Step { CurSeq(Done(rq)) }

    function Refs(): nat { if flushRq.Issued? then flushRq.refs else 0 }

    /** The requests that wait for the flush in flight. */
    function Running(): seq<Id> { Queue(runningIdx) }

    /** rq sits on one of the three lists of the sequencer. */
    predicate Waiting(rq: Id) { rq in queue0 || rq in queue1 || rq in inFlight }
  }

  const EMPTY: Fq := Fq([], [], [], 0, 0, 0, OK, Idle, map[], [], [], map[], false)

  const HZ := 250   // the kernel's configurable tick rate; no result depends on its value
  const FLUSH_PENDING_TIMEOUT := 5 * HZ

  /** time_before on 64-bit tick counters: the wrapped difference is negative. */
  predicate TimeBefore(a: int, b: int) {
    (a - b) % 0x1_0000_0000_0000_0000 >= 0x8000_0000_0000_0000
  }

  function CurSeq(done: set<Step>): Step {
    if PREFLUSH !in done then PREFLUSH
    else if DATA !in done then DATA
    else if POSTFLUSH !in done then POSTFLUSH
    else DONE
  }

  function Policy(flags: Flags, info: Info): set<Step> {
    (if info.sectors > 0 then {DATA} else {}) +
    (if flags.wc && info.preflush then {PREFLUSH} else {}) +
    (if flags.wc && !flags.fua && info.fua then {POSTFLUSH} else {})
  }

  /** list_del: takes rq off whichever list it is linked on. */
  function Unlink(fq: Fq, rq: Id): Fq {
    fq.(queue0 := Remove(fq.queue0, rq), queue1 := Remove(fq.queue1, rq), inFlight := Remove(fq.inFlight, rq))
  }

  /** list_move_tail onto the pending queue, or onto flush_data_in_flight. */
  function MoveToPending(fq: Fq, rq: Id): Fq {
    var u := Unlink(fq, rq);
    u.WithQueue(u.pendingIdx, u.Pending() + [rq])
  }

  function MoveToData(fq: Fq, rq: Id): Fq {
    var u := Unlink(fq, rq);
    u.(inFlight := u.inFlight + [rq])
  }

  function EndRequest(fq: Fq, rq: Id, error: Status): Fq {
    fq.(ended := fq.ended + [rq], result := fq.result[rq := error])
  }

  predicate Deferred(fq: Fq, now: int) {
    fq.inFlight != [] && TimeBefore(now, fq.pendingSince + FLUSH_PENDING_TIMEOUT)
  }

  /** blk_kick_flush. */
  function KickFlush(fq: Fq, now: int): Fq {
    if fq.pendingIdx != fq.runningIdx || fq.Pending() == [] then fq          // C1
    else if Deferred(fq, now) then fq                                        // C2 and C3
    else fq.(pendingIdx := 1 - fq.pendingIdx, flushRq := Issued(fq.Pending()[0], 1))
  }

  /** rq->flush.seq |= seq, with its BUG_ON. */
  function Record(fq: Fq, rq: Id, steps: set<Step>): Fq {
    fq.(bug := fq.bug || fq.Done(rq) * steps != {}, done := fq.done[rq := fq.Done(rq) + steps])
  }

  /** The part of blk_flush_complete_seq before the final kick. */
  function Advance(fq: Fq, rq: Id, steps: set<Step>, error: Status, now: int): Fq {
    var f := Record(fq, rq, steps);
    MoveOn(f, rq, if error == OK then f.Cur(rq) else DONE, error, now)
  }

  /** The switch of blk_flush_complete_seq: rq goes where its next step takes it. */
  function MoveOn(fq: Fq, rq: Id, step: Step, error: Status, now: int): Fq {
    match step
    case PREFLUSH | POSTFLUSH =>
      MoveToPending(fq.(pendingSince := if fq.Pending() == [] then now else fq.pendingSince), rq)
    case DATA => MoveToData(fq, rq)
    case DONE => EndRequest(Unlink(fq, rq), rq, error)
  }

  /** blk_flush_complete_seq. */
  function CompleteSeq(fq: Fq, rq: Id, steps: set<Step>, error: Status, now: int): Fq {
    KickFlush(Advance(fq, rq, steps, error, now), now)
  }

  /** mq_flush_data_end_io. */
  function DataEndIo(fq: Fq, rq: Id, error: Status, now: int): Fq {
    CompleteSeq(fq, rq, {DATA}, error, now)
  }

  /** One step of the walk in flush_end_io: rq completes the flush step it waits for. */
  function EndStep(fq: Fq, rq: Id, error: Status, now: int): Fq {
    var f := fq.(bug := fq.bug || fq.Cur(rq) !in {PREFLUSH, POSTFLUSH});
    CompleteSeq(f, rq, {f.Cur(rq)}, error, now)
  }

  /** The requests of l complete their flush step one after the other. */
  function EndAll(fq: Fq, l: seq<Id>, error: Status, now: int): Fq
    decreases |l|
  {
    if l == [] then fq else EndAll(EndStep(fq, l[0], error, now), l[1..], error, now)
  }

  datatype Cursor = Head | At(rq: Id)

  function First(l: seq<Id>): Cursor { if l == [] then Head else At(l[0]) }

  /** The entry after x in the list, or the list head after the last entry. */
  function Next(l: seq<Id>, x: Id): Cursor {
    if l == [] then Head
    else if l[0] == x then First(l[1..])
    else Next(l[1..], x)
  }

  /** One iteration of list_for_each_entry_safe over list r: the successor is read before rq moves. */
  function WalkStep(fq: Fq, r: Index, rq: Id, error: Status, now: int): (Fq, Cursor) {
    (EndStep(fq, rq, error, now), Next(fq.Queue(r), rq))
  }

  /** flush_end_io up to the walk: the last reference is gone and the flush is accounted as finished. */
  function FinishFlush(fq: Fq): Fq {
    fq.(rqStatus := OK, flushRq := Idle, bug := fq.bug || fq.pendingIdx == fq.runningIdx,
        runningIdx := 1 - fq.runningIdx)
  }

  /** The status the walk of flush_end_io uses: a remembered one goes before its own. */
  function WalkStatus(fq: Fq, error: Status): Status { if fq.rqStatus != OK then fq.rqStatus else error }

  /** flush_end_io drops a reference. If others are left, all it does is to overwrite the status. */
  function FlushEndIo(fq: Fq, error: Status, now: int): Fq {
    if fq.Refs() > 1 then fq.(rqStatus := error, flushRq := Issued(fq.flushRq.owner, fq.flushRq.refs - 1))
    else EndAll(FinishFlush(fq), fq.Running(), WalkStatus(fq, error), now)
  }

  /** req_ref_inc_not_zero on the flush request, by a tag iterator. */
  function GetRef(fq: Fq): Fq
    requires fq.flushRq.Issued?
  {
    fq.(flushRq := fq.flushRq.(refs := fq.flushRq.refs + 1))
  }

  /** blk_insert_flush. */
  function InsertFlush(fq: Fq, flags: Flags, rq: Id, info: Info, now: int): Fq {
    var policy := Policy(flags, info);
    if policy == {} then EndRequest(fq, rq, OK)
    else if policy == {DATA} then fq.(bypass := fq.bypass + [rq])
    else CompleteSeq(fq.(done := fq.done[rq := {}]), rq, ACTIONS - policy, OK, now)
  }

  // ----- The structural invariant -----

  /** A request that waits for PREFLUSH goes on to DATA or to its end, never straight to POSTFLUSH. */
  predicate Shaped(done: set<Step>) {
    DONE !in done && (PREFLUSH !in done && DATA in done ==> POSTFLUSH in done)
  }

  /** No request is linked twice. */
  ghost predicate Linked(fq: Fq) {
    && Distinct(fq.queue0) && Distinct(fq.queue1) && Distinct(fq.inFlight)
    && Disjoint(fq.queue0, fq.queue1) && Disjoint(fq.queue0, fq.inFlight) && Disjoint(fq.queue1, fq.inFlight)
  }

  /** Each list holds only requests whose current step matches it. */
  ghost predicate Matched(fq: Fq) {
    && (forall rq :: rq in fq.queue0 || rq in fq.queue1 ==> fq.Cur(rq) in {PREFLUSH, POSTFLUSH})
    && (forall rq :: rq in fq.inFlight ==> fq.Cur(rq) == DATA)
    && (forall rq :: fq.Waiting(rq) ==> rq in fq.done && Shaped(fq.Done(rq)))
  }

  /** Every request ends at most once, and leaves the lists when it does. */
  ghost predicate EndedOnce(fq: Fq) {
    && Distinct(fq.ended)
    && (forall rq :: rq in fq.ended <==> rq in fq.result)
    && (forall rq :: fq.Waiting(rq) ==> rq !in fq.ended)
    && (forall rq :: rq in fq.bypass ==> rq !in fq.ended && !fq.Waiting(rq))
    && Distinct(fq.bypass)
  }

  /** What holds at every point at which the lists are consistent, also inside the walk. */
  ghost predicate Sound(fq: Fq) {
    !fq.bug && Linked(fq) && Matched(fq) && EndedOnce(fq)
  }

  /** The two indices differ exactly while a flush is in flight, and then the request whose tag
      the flush borrows is the first of the running list, and somebody holds a reference. */
  ghost predicate Indexed(fq: Fq) {
    if fq.pendingIdx == fq.runningIdx then
      fq.flushRq == Idle && fq.Queue(1 - fq.runningIdx) == []
    else
      fq.Running() != [] && fq.flushRq.Issued? && fq.flushRq.owner == fq.Running()[0] && fq.flushRq.refs >= 1
  }

  /** A request waiting for a flush never waits alone: a flush or a DATA step is under way. */
  ghost predicate Kicked(fq: Fq) {
    fq.pendingIdx == fq.runningIdx && fq.Pending() != [] ==> fq.inFlight != []
  }

  ghost predicate Inv(fq: Fq) { Sound(fq) && Indexed(fq) && Kicked(fq) }

  /** The invariant inside the walk of flush_end_io over list r, of which `rest` is still to be visited. */
  ghost predicate WalkInv(fq: Fq, r: Index, rest: seq<Id>) {
    && Sound(fq)
    && fq.Queue(r) == rest
    && fq.runningIdx == 1 - r
    && (if fq.pendingIdx == fq.runningIdx then fq.flushRq == Idle
        else fq.Queue(1 - r) != [] && fq.flushRq == Issued(fq.Queue(1 - r)[0], 1))
  }

  /** g differs from fq only in where rq is linked. */
  ghost predicate Relinked(fq: Fq, g: Fq, rq: Id) {
    && Linked(g)
    && (forall x :: x != rq ==> (x in g.queue0 <==> x in fq.queue0) && (x in g.queue1 <==> x in fq.queue1))
    && (forall x :: x != rq ==> (x in g.inFlight <==> x in fq.inFlight))
  }

  lemma UnlinkRelinks(fq: Fq, rq: Id)
    requires Linked(fq)
    ensures Relinked(fq, Unlink(fq, rq), rq) && !Unlink(fq, rq).Waiting(rq)
  {
    RemoveDistinct(fq.queue0, rq);
    RemoveDistinct(fq.queue1, rq);
    RemoveDistinct(fq.inFlight, rq);
  }

  lemma MoveToPendingRelinks(fq: Fq, rq: Id)
    requires Linked(fq)
    ensures Relinked(fq, MoveToPending(fq, rq), rq) && rq !in MoveToPending(fq, rq).inFlight
  {
    UnlinkRelinks(fq, rq);
    DistinctAppend(Unlink(fq, rq).Pending(), rq);
  }

  lemma MoveToDataRelinks(fq: Fq, rq: Id)
    requires Linked(fq)
    ensures var m := MoveToData(fq, rq); Relinked(fq, m, rq) && rq !in m.queue0 && rq !in m.queue1
  {
    UnlinkRelinks(fq, rq);
    DistinctAppend(Unlink(fq, rq).inFlight, rq);
  }

  /** A request in progress moved to the list of its step keeps everything sound. */
  lemma RelinkedMatched(fq: Fq, g: Fq, rq: Id)
    requires Matched(fq) && Relinked(fq, g, rq)
    requires rq in g.done && Shaped(g.Done(rq))
    requires forall x :: x != rq && x in fq.done ==> x in g.done && g.done[x] == fq.done[x]
    requires rq in g.queue0 || rq in g.queue1 ==> g.Cur(rq) in {PREFLUSH, POSTFLUSH}
    requires rq in g.inFlight ==> g.Cur(rq) == DATA
    ensures Matched(g)
  {
  }

  lemma RelinkedEndedOnce(fq: Fq, g: Fq, rq: Id)
    requires EndedOnce(fq) && Relinked(fq, g, rq)
    requires rq !in fq.ended && rq !in fq.bypass
    requires g.ended == fq.ended && g.result == fq.result && g.bypass == fq.bypass
    ensures EndedOnce(g)
  {
  }

  lemma EndRequestEndedOnce(fq: Fq, rq: Id, error: Status)
    requires EndedOnce(fq)
    requires rq !in fq.ended && rq !in fq.bypass && !fq.Waiting(rq)
    ensures EndedOnce(EndRequest(fq, rq, error))
  {
    DistinctAppend(fq.ended, rq);
  }

  lemma PendingSound(fq: Fq, f: Fq, rq: Id, since: int)
    requires Sound(fq) && rq !in fq.ended && rq !in fq.bypass
    requires f == fq.(done := f.done) && rq in f.done && Shaped(f.done[rq])
    requires forall x :: x != rq && x in fq.done ==> x in f.done && f.done[x] == fq.done[x]
    requires f.Cur(rq) in {PREFLUSH, POSTFLUSH}
    ensures Sound(MoveToPending(f.(pendingSince := since), rq))
  {
    var g := MoveToPending(f.(pendingSince := since), rq);
    MoveToPendingRelinks(f.(pendingSince := since), rq);
    RelinkedMatched(fq, g, rq);
    RelinkedEndedOnce(fq, g, rq);
  }

  lemma DataSound(fq: Fq, f: Fq, rq: Id)
    requires Sound(fq) && rq !in fq.ended && rq !in fq.bypass
    requires f == fq.(done := f.done) && rq in f.done && Shaped(f.done[rq])
    requires forall x :: x != rq && x in fq.done ==> x in f.done && f.done[x] == fq.done[x]
    requires f.Cur(rq) == DATA
    ensures Sound(MoveToData(f, rq))
  {
    MoveToDataRelinks(f, rq);
    RelinkedMatched(fq, MoveToData(f, rq), rq);
    RelinkedEndedOnce(fq, MoveToData(f, rq), rq);
  }

  lemma EndSound(fq: Fq, f: Fq, rq: Id, error: Status)
    requires Sound(fq) && rq !in fq.ended && rq !in fq.bypass
    requires f == fq.(done := f.done) && rq in f.done && Shaped(f.done[rq])
    requires forall x :: x != rq && x in fq.done ==> x in f.done && f.done[x] == fq.done[x]
    ensures Sound(EndRequest(Unlink(f, rq), rq, error))
  {
    UnlinkRelinks(f, rq);
    RelinkedMatched(fq, Unlink(f, rq), rq);
    RelinkedEndedOnce(fq, Unlink(f, rq), rq);
    EndRequestEndedOnce(Unlink(f, rq), rq, error);
  }

  /** Completing steps of one request moves that request alone, to the list of its new step. */
  lemma AdvanceSound(fq: Fq, rq: Id, steps: set<Step>, error: Status, now: int)
    requires Sound(fq)
    requires rq !in fq.ended && rq !in fq.bypass
    requires fq.Done(rq) * steps == {} && Shaped(fq.Done(rq) + steps)
    ensures Sound(Advance(fq, rq, steps, error, now))
  {
    var f := Record(fq, rq, steps);
    match (if error == OK then f.Cur(rq) else DONE) {
      case PREFLUSH | POSTFLUSH =>
        PendingSound(fq, f, rq, if f.Pending() == [] then now else f.pendingSince);
      case DATA => DataSound(fq, f, rq);
      case DONE => EndSound(fq, f, rq, error);
    }
  }

  /** From fq to a only rq has moved, and it has ended at most with this status and, if without
      error, with all its steps recorded. */
  ghost predicate MovesOne(fq: Fq, a: Fq, rq: Id, error: Status) {
    && (forall x :: x != rq ==> a.Done(x) == fq.Done(x))
    && (forall x :: x != rq ==> (a.Waiting(x) <==> fq.Waiting(x)))
    && (forall x :: x != rq ==> (x in a.ended <==> x in fq.ended))
    && (forall x :: x != rq ==> (x in a.result <==> x in fq.result))
    && (forall x :: x != rq && x in fq.result ==> a.result[x] == fq.result[x])
    && (rq in a.ended ==> rq in a.result && a.result[rq] == error && (error == OK ==> a.Cur(rq) == DONE))
    && (a.Waiting(rq) || rq in a.ended)
  }

  lemma MoveOnLists(fq: Fq, rq: Id, step: Step, error: Status, now: int)
    ensures var a := MoveOn(fq, rq, step, error, now);
      && (forall x :: x != rq ==> (a.Waiting(x) <==> fq.Waiting(x)))
      && (step != DONE ==> a.Waiting(rq))
      && a.done == fq.done && a.bypass == fq.bypass
      && (if step == DONE then a.ended == fq.ended + [rq] && a.result == fq.result[rq := error]
          else a.ended == fq.ended && a.result == fq.result)
  {
    match step {
      case PREFLUSH =>
      case POSTFLUSH =>
      case DATA =>
      case DONE =>
    }
  }

  lemma AdvanceMovesOne(fq: Fq, rq: Id, steps: set<Step>, error: Status, now: int)
    requires rq !in fq.ended
    ensures var a := Advance(fq, rq, steps, error, now);
      MovesOne(fq, a, rq, error) && a.Done(rq) == fq.Done(rq) + steps && a.bypass == fq.bypass
  {
    var f := Record(fq, rq, steps);
    MoveOnLists(f, rq, if error == OK then f.Cur(rq) else DONE, error, now);
  }

  lemma FailedEnds(fq: Fq, rq: Id, steps: set<Step>, error: Status, now: int)
    requires error != OK
    ensures rq in Advance(fq, rq, steps, error, now).ended
  {
  }

  lemma KickIsKicked(fq: Fq, now: int)
    ensures Kicked(KickFlush(fq, now))
  {
  }

  lemma KickIndexed(fq: Fq, now: int)
    requires Sound(fq) && Indexed(fq)
    ensures Inv(KickFlush(fq, now))
  {
    KickIsKicked(fq, now);
  }

  /** A request on neither queue is added to the pending one, or to none. */
  lemma AdvanceQueues(fq: Fq, rq: Id, steps: set<Step>, error: Status, now: int)
    requires rq !in fq.queue0 && rq !in fq.queue1
    ensures var a := Advance(fq, rq, steps, error, now);
      && a.pendingIdx == fq.pendingIdx && a.runningIdx == fq.runningIdx && a.flushRq == fq.flushRq
      && a.Queue(1 - fq.pendingIdx) == fq.Queue(1 - fq.pendingIdx)
  {
  }

  /** Moving a request that is not in the running list leaves the running flush alone. */
  lemma AdvanceIndexed(fq: Fq, rq: Id, steps: set<Step>, error: Status, now: int)
    requires Indexed(fq) && rq !in fq.queue0 && rq !in fq.queue1
    ensures Indexed(Advance(fq, rq, steps, error, now))
  {
    AdvanceQueues(fq, rq, steps, error, now);
  }

  lemma CompleteSeqInv(fq: Fq, rq: Id, steps: set<Step>, error: Status, now: int)
    requires Sound(fq) && Indexed(fq)
    requires rq !in fq.ended && rq !in fq.bypass && rq !in fq.queue0 && rq !in fq.queue1
    requires fq.Done(rq) * steps == {} && Shaped(fq.Done(rq) + steps)
    ensures Inv(CompleteSeq(fq, rq, steps, error, now))
  {
    AdvanceSound(fq, rq, steps, error, now);
    AdvanceIndexed(fq, rq, steps, error, now);
    KickIndexed(Advance(fq, rq, steps, error, now), now);
  }

  /** Where a request waiting for a flush goes when it gets it: never to the pending queue. */
  lemma AfterFlush(done: set<Step>)
    requires Shaped(done) && CurSeq(done) in {PREFLUSH, POSTFLUSH}
    ensures var next := done + {CurSeq(done)}; Shaped(next) && CurSeq(next) in {DATA, DONE}
  {
  }

  lemma EndStepLists(fq: Fq, r: Index, rest: seq<Id>, error: Status, now: int)
    requires WalkInv(fq, r, rest) && rest != []
    ensures var a := Advance(fq, rest[0], {fq.Cur(rest[0])}, error, now);
      a.Queue(r) == rest[1..] && a.Queue(1 - r) == fq.Queue(1 - r) && a.flushRq == fq.flushRq
      && a.pendingIdx == fq.pendingIdx && a.runningIdx == fq.runningIdx
  {
    var rq := rest[0];
    AfterFlush(fq.Done(rq));
    assert rq in fq.Queue(r);
    assert rq !in fq.Queue(1 - r) && rq !in fq.inFlight;
  }

  lemma EndStepCompletes(fq: Fq, rq: Id, error: Status, now: int)
    requires fq.Cur(rq) in {PREFLUSH, POSTFLUSH}
    ensures EndStep(fq, rq, error, now) == KickFlush(Advance(fq, rq, {fq.Cur(rq)}, error, now), now)
  {
    assert fq.(bug := fq.bug || fq.Cur(rq) !in {PREFLUSH, POSTFLUSH}) == fq;
  }

  lemma KickWalk(fq: Fq, r: Index, rest: seq<Id>, now: int)
    requires WalkInv(fq, r, rest)
    ensures WalkInv(KickFlush(fq, now), r, rest) && Kicked(KickFlush(fq, now))
  {
    KickIsKicked(fq, now);
  }

  /** One step of the walk in flush_end_io: exactly the visited request leaves the list being
      walked, also when the nested kick has just made that list the pending one. */
  lemma EndStepInv(fq: Fq, r: Index, rest: seq<Id>, error: Status, now: int)
    requires WalkInv(fq, r, rest) && rest != []
    ensures WalkInv(EndStep(fq, rest[0], error, now), r, rest[1..])
    ensures Kicked(EndStep(fq, rest[0], error, now))
  {
    var rq := rest[0];
    assert rq in fq.Queue(r);
    AfterFlush(fq.Done(rq));
    AdvanceSound(fq, rq, {fq.Cur(rq)}, error, now);
    EndStepLists(fq, r, rest, error, now);
    EndStepCompletes(fq, rq, error, now);
    KickWalk(Advance(fq, rq, {fq.Cur(rq)}, error, now), r, rest[1..], now);
  }

  lemma {:induction false} EndAllInv(fq: Fq, r: Index, rest: seq<Id>, error: Status, now: int)
    requires WalkInv(fq, r, rest)
    requires rest == [] ==> Kicked(fq)
    ensures WalkInv(EndAll(fq, rest, error, now), r, [])
    ensures Kicked(EndAll(fq, rest, error, now))
    decreases |rest|
  {
    if rest != [] {
      EndStepInv(fq, r, rest, error, now);
      EndAllInv(EndStep(fq, rest[0], error, now), r, rest[1..], error, now);
    }
  }

  /** The four entry points keep the invariant; no BUG_ON fires in any of them. */
  lemma InsertFlushInv(fq: Fq, flags: Flags, rq: Id, info: Info, now: int)
    requires Inv(fq) && rq !in fq.ended && rq !in fq.bypass && !fq.Waiting(rq)
    requires POSTFLUSH in Policy(flags, info) ==> DATA in Policy(flags, info)
    ensures Inv(InsertFlush(fq, flags, rq, info, now))
  {
    var policy := Policy(flags, info);
    if policy == {} {
      EndRequestEndedOnce(fq, rq, OK);
    } else if policy == {DATA} {
      DistinctAppend(fq.bypass, rq);
    } else {
      var f := fq.(done := fq.done[rq := {}]);
      assert Sound(f) && Indexed(f);
      CompleteSeqInv(f, rq, ACTIONS - policy, OK, now);
    }
  }

  lemma DataEndIoInv(fq: Fq, rq: Id, error: Status, now: int)
    requires Inv(fq) && rq in fq.inFlight
    ensures Inv(DataEndIo(fq, rq, error, now))
  {
    CompleteSeqInv(fq, rq, {DATA}, error, now);
  }

  /** The walk starts on the running list, with no flush in flight any more. */
  lemma FinishFlushWalks(fq: Fq)
    requires Inv(fq) && fq.flushRq != Idle
    ensures var f := FinishFlush(fq);
      fq.Running() != [] && f.Queue(fq.runningIdx) == fq.Running()
      && WalkInv(f, fq.runningIdx, fq.Running())
  {
  }

  lemma FlushEndIoInv(fq: Fq, error: Status, now: int)
    requires Inv(fq) && fq.flushRq != Idle
    ensures Inv(FlushEndIo(fq, error, now))
    ensures fq.Refs() == 1 ==> FlushEndIo(fq, error, now).Queue(fq.runningIdx) == []
  {
    if fq.Refs() == 1 {
      FinishFlushWalks(fq);
      EndAllInv(FinishFlush(fq), fq.runningIdx, fq.Running(), WalkStatus(fq, error), now);
    }
  }

  lemma GetRefInv(fq: Fq)
    requires Inv(fq) && fq.flushRq != Idle
    ensures Inv(GetRef(fq))
  {
  }

  // ----- What the walk does to its requests -----

  /** x has ended, with this status. */
  predicate EndedWith(fq: Fq, x: Id, status: Status) {
    x in fq.ended && x in fq.result && fq.result[x] == status
  }

  /** The flush step of x has been recorded; x has ended exactly with the error, or not with one. */
  predicate GotFlush(fq: Fq, g: Fq, x: Id, error: Status) {
    && g.Done(x) == fq.Done(x) + {fq.Cur(x)}
    && (if error == OK then x in g.ended ==> EndedWith(g, x, OK) else EndedWith(g, x, error))
  }

  predicate SameStanding(fq: Fq, g: Fq, x: Id) {
    && g.Done(x) == fq.Done(x) && (x in g.ended <==> x in fq.ended)
    && (x in g.result <==> x in fq.result) && (x in fq.result ==> g.result[x] == fq.result[x])
  }

  lemma EndStepOutcome(fq: Fq, r: Index, rest: seq<Id>, error: Status, now: int, x: Id)
    requires WalkInv(fq, r, rest) && rest != []
    ensures var g := EndStep(fq, rest[0], error, now);
      if x == rest[0] then GotFlush(fq, g, x, error) else SameStanding(fq, g, x)
  {
    var rq := rest[0];
    assert rq in fq.Queue(r);
    EndStepCompletes(fq, rq, error, now);
    AdvanceMovesOne(fq, rq, {fq.Cur(rq)}, error, now);
    if error != OK { FailedEnds(fq, rq, {fq.Cur(rq)}, error, now); }
    KickKeepsStanding(Advance(fq, rq, {fq.Cur(rq)}, error, now), now, x);
  }

  lemma KickKeepsStanding(fq: Fq, now: int, x: Id)
    ensures var g := KickFlush(fq, now); g.ended == fq.ended && g.result == fq.result && g.done == fq.done
  {
  }

  /** The walk gives each request that it visits its flush, and no other. */
  lemma {:induction false} EndAllOutcome(fq: Fq, r: Index, rest: seq<Id>, error: Status, now: int, x: Id)
    requires WalkInv(fq, r, rest)
    ensures var g := EndAll(fq, rest, error, now);
      if x in rest then GotFlush(fq, g, x, error) else SameStanding(fq, g, x)
    decreases |rest|
  {
    if rest != [] {
      assert rest[0] !in rest[1..] by { assert Distinct(fq.Queue(r)); }
      EndStepOutcome(fq, r, rest, error, now, x);
      EndStepInv(fq, r, rest, error, now);
      EndAllOutcome(EndStep(fq, rest[0], error, now), r, rest[1..], error, now, x);
    }
  }

  /** Dropping the last reference gives the waiting requests their flush, with the remembered status if
      there is one. */
  lemma LastRefOutcome(fq: Fq, error: Status, now: int, x: Id)
    requires Inv(fq) && fq.Refs() == 1 && x in fq.Running()
    ensures GotFlush(fq, FlushEndIo(fq, error, now), x, WalkStatus(fq, error))
  {
    FinishFlushWalks(fq);
    assert FinishFlush(fq).Done(x) == fq.Done(x);
    EndAllOutcome(FinishFlush(fq), fq.runningIdx, fq.Running(), WalkStatus(fq, error), now, x);
  }

  // ----- Why a POSTFLUSH step needs a DATA step before it -----

  const CACHED := Flags(true, false)                     // a write cache, no FUA support
  const FUA_FLUSH := Info(0, true, true)                 // PREFLUSH and FUA without data

  /** PREFLUSH completes and POSTFLUSH follows at once: rq moves to the pending queue. */
  lemma PreToPost(fq: Fq, rq: Id)
    requires fq.Done(rq) == {DATA} && fq.pendingSince == 0
    ensures EndStep(fq, rq, OK, 0) == KickFlush(MoveToPending(fq.(done := fq.done[rq := {PREFLUSH, DATA}]), rq), 0)
  {
    assert {DATA} + {PREFLUSH} == {PREFLUSH, DATA};
    assert fq.(bug := fq.bug || fq.Cur(rq) !in {PREFLUSH, POSTFLUSH}) == fq;
    assert Record(fq, rq, {PREFLUSH}) == fq.(done := fq.done[rq := {PREFLUSH, DATA}]);
  }

  const SEQ0: map<Id, set<Step>> := map[0 := ACTIONS, 1 := {DATA}, 2 := {DATA}, 3 := {DATA}, 4 := {DATA, POSTFLUSH}]
  const SEQ1: map<Id, set<Step>> := SEQ0[1 := {PREFLUSH, DATA}]
  const SEQ2: map<Id, set<Step>> := SEQ1[2 := {PREFLUSH, DATA}]
  const SEQ3: map<Id, set<Step>> := SEQ2[3 := {PREFLUSH, DATA}]

  /** Requests 1, 2 and 3 (PREFLUSH and FUA, no data) share the flush in flight; the plain flush 4
      waits for the next one. */
  const SHARED: Fq :=
    EMPTY.(queue0 := [4], queue1 := [1, 2, 3], pendingIdx := 0, runningIdx := 1, flushRq := Issued(1, 1), done := SEQ0,
           ended := [0], result := map[0 := OK])
  const SHARED1: Fq :=
    SHARED.(queue0 := [4, 1], queue1 := [2, 3], pendingIdx := 1, runningIdx := 0, flushRq := Issued(4, 1), done := SEQ1)
  const SHARED2: Fq := SHARED1.(queue1 := [3, 2], done := SEQ2)
  const SHARED3: Fq := SHARED2.(queue1 := [2, 3], done := SEQ3)

  lemma SharedStep1()
    ensures EndStep(FinishFlush(SHARED), 1, OK, 0) == SHARED1 && Next(FinishFlush(SHARED).Queue(1), 1) == At(2)
  {
    PreToPost(FinishFlush(SHARED), 1);
    assert Remove([1, 2, 3], 1) == [2, 3];
  }

  lemma SharedStep2()
    ensures EndStep(SHARED1, 2, OK, 0) == SHARED2 && Next(SHARED1.Queue(1), 2) == At(3)
  {
    PreToPost(SHARED1, 2);
    assert Remove([2, 3], 2) == [3];
    assert Remove([4, 1], 2) == [4, 1];
  }

  lemma SharedStep3()
    ensures EndStep(SHARED2, 3, OK, 0) == SHARED3 && Next(SHARED2.Queue(1), 3) == At(2)
  {
    PreToPost(SHARED2, 3);
    assert Remove([3, 2], 3) == [2];
    assert Remove([4, 1], 3) == [4, 1];
  }

  lemma SharedStep4()
    ensures var w := EndStep(SHARED3, 2, OK, 0); EndedWith(w, 2, OK) && w.flushRq == Issued(4, 1)
  {
    assert {PREFLUSH, DATA} + {POSTFLUSH} == ACTIONS;
    assert SHARED3.(bug := SHARED3.bug || SHARED3.Cur(2) !in {PREFLUSH, POSTFLUSH}) == SHARED3;
  }

  /** Were a request to have POSTFLUSH without DATA, the walk of flush_end_io could meet it twice:
      here request 2 moves to the pending queue, which a nested kick has made the list being walked,
      and its POSTFLUSH is credited although the flush issued after its PREFLUSH is still in flight. */
  lemma PostflushWithoutDataIsCreditedTooEarly()
    ensures Policy(CACHED, FUA_FLUSH) == {PREFLUSH, POSTFLUSH}
    ensures First(SHARED.queue1) == At(1) && WalkStep(FinishFlush(SHARED), 1, 1, OK, 0) == (SHARED1, At(2))
    ensures WalkStep(SHARED1, 1, 2, OK, 0) == (SHARED2, At(3))
    ensures WalkStep(SHARED2, 1, 3, OK, 0) == (SHARED3, At(2))
    ensures var w := WalkStep(SHARED3, 1, 2, OK, 0).0;
      EndedWith(w, 2, OK) && w.flushRq == Issued(4, 1)
  {
    SharedStep1();
    SharedStep2();
    SharedStep3();
    SharedStep4();
  }
}
