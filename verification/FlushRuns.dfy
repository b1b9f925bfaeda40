/**
 Runs of the flush sequencer against a device with a volatile write cache.

 A flush makes stable what had completed when the device received it. Data and flushes may
 fail, the completion order is arbitrary, other writes come and go, the cache may destage at
 any time, the clock shows any value, and tag iterators take and drop references to the flush
 request. The main results: requests that end without error are durable, except those that were
 given a failed flush as a success (RunsAreDurable, and module FlushRefs about the exception), the
 sequencer never gets stuck (Progress), and every run with finitely many inserts and references is
 finite and ends every request exactly once (RunsTerminate, QuiescentRunsEndAll).
*/
module FlushRuns {
  import opened Seqs
  import opened Flush

  datatype Device = Device(completed: set<Id>, stable: set<Id>)

  /** How far the flush in flight has come: still queued, received by the device when `covers` had
      completed, or answered with `error` while others held references to the flush request. A
      reference that was dropped since, and was not the last, has overwritten the remembered status. */
  datatype Sent =
    | Queued
    | AtDevice(covers: set<Id>)
    | Answered(covers: set<Id>, error: Status, overwritten: bool)

  datatype World = World(
    fq: Fq,
    dev: Device,
    sent: Sent,
    info: map<Id, Info>,           // every inserted request
    before: map<Id, set<Id>>,      // the data that had completed when it was inserted
    forgiven: set<Id>              // the requests that were given a failed flush as a success
  )

  datatype Event =
    | Insert(rq: Id, inf: Info, now: int)
    | Write(d: Id)                                          // an ordinary write completes
    | Destage(d: Id)                                        // the cache writes d back by itself
    | BypassDone(rq: Id, error: Status)                     // a request that needed no flush completes
    | DataDone(rq: Id, error: Status, now: int)
    | Dispatch                                              // the device receives the flush
    | FlushDone(error: Status, now: int)                    // the device answers, completion drops its reference
    | Get                                                   // a tag iterator takes a reference
    | Put(now: int)                                         // blk_mq_put_rq_ref by a tag iterator

  function Start(): World { World(EMPTY, Device({}, {}), Queued, map[], map[], {}) }

  predicate Enabled(flags: Flags, w: World, e: Event) {
    match e
    case Insert(rq, inf, _) =>
      rq !in w.info && rq !in w.dev.completed && (POSTFLUSH in Policy(flags, inf) ==> DATA in Policy(flags, inf))
    case Write(d) => d !in w.info
    case Destage(d) => d in w.dev.completed
    case BypassDone(rq, _) => rq in w.fq.bypass
    case DataDone(rq, _, _) => rq in w.fq.inFlight
    case Dispatch => w.fq.flushRq != Idle && w.sent == Queued
    case FlushDone(_, _) => w.fq.flushRq != Idle && w.sent.AtDevice?
    case Get => w.fq.Refs() > 0
    case Put(_) => w.fq.Refs() > (if w.sent.Answered? then 0 else 1)
  }

  /** A reference that is not the last is dropped after the device has reported a failure. */
  predicate Wipes(w: World, e: Event) { e.Put? && w.sent.Answered? && w.sent.error != OK && w.fq.Refs() > 1 }

  /** The last reference to a failed flush is dropped when its error has been overwritten. */
  predicate Forgives(w: World) { w.sent.Answered? && w.sent.error != OK && w.sent.overwritten && w.fq.Refs() == 1 }

  /** A completed write is stable at once without a write cache, or if it was sent with FUA. */
  function Wrote(flags: Flags, dev: Device, d: Id, fua: bool): Device {
    Device(dev.completed + {d}, if !flags.wc || (flags.fua && fua) then dev.stable + {d} else dev.stable)
  }

  function WroteRq(flags: Flags, w: World, rq: Id, error: Status): Device {
    if error == OK && rq in w.info && w.info[rq].sectors > 0 then Wrote(flags, w.dev, rq, w.info[rq].fua) else w.dev
  }

  function Flushed(dev: Device, covers: set<Id>): Device { dev.(stable := dev.stable + covers) }

  function Apply(flags: Flags, w: World, e: Event): World {
    match e
    case Insert(rq, inf, now) =>
      w.(fq := InsertFlush(w.fq, flags, rq, inf, now), info := w.info[rq := inf],
         before := w.before[rq := w.dev.completed])
    case Write(d) => w.(dev := Wrote(flags, w.dev, d, false))
    case Destage(d) => w.(dev := Flushed(w.dev, {d}))
    case BypassDone(rq, error) =>
      w.(fq := EndRequest(w.fq.(bypass := Remove(w.fq.bypass, rq)), rq, error), dev := WroteRq(flags, w, rq, error))
    case DataDone(rq, error, now) =>
      w.(fq := DataEndIo(w.fq, rq, error, now), dev := WroteRq(flags, w, rq, error))
    case Dispatch => w.(sent := AtDevice(w.dev.completed))
    case FlushDone(error, now) =>
      if w.sent.AtDevice? then
        w.(fq := FlushEndIo(w.fq, error, now),
           dev := if error == OK then Flushed(w.dev, w.sent.covers) else w.dev,
           sent := if w.fq.Refs() > 1 then Answered(w.sent.covers, error, false) else Queued)
      else w
    case Get => if w.fq.flushRq.Issued? then w.(fq := GetRef(w.fq)) else w
    case Put(now) =>
      w.(fq := FlushEndIo(w.fq, OK, now),
         sent := if w.fq.Refs() <= 1 then Queued
                 else if w.sent.Answered? then w.sent.(overwritten := true) else w.sent,
         forgiven := if Forgives(w) then w.forgiven + (set rq | rq in w.fq.Running()) else w.forgiven)
  }

  ghost predicate IsRun(flags: Flags, w: World, es: seq<Event>, v: World)
    decreases |es|
  {
    if es == [] then w == v
    else Enabled(flags, w, es[0]) && IsRun(flags, Apply(flags, w, es[0]), es[1..], v)
  }

  // ----- Durability -----

  /** The steps recorded for a request have had their effect on the device; the flush steps only if
      they were earned. */
  ghost predicate Credited(flags: Flags, dev: Device, inf: Info, before: set<Id>, rq: Id, done: set<Step>,
                           earned: bool)
  {
    var policy := Policy(flags, inf);
    && before <= dev.completed
    && ACTIONS - policy <= done && (POSTFLUSH in policy ==> DATA in policy)
    && (earned && PREFLUSH in policy && PREFLUSH in done ==> before <= dev.stable)
    && (DATA in policy && DATA in done ==> rq in dev.completed && (flags.fua && inf.fua ==> rq in dev.stable))
    && (earned && POSTFLUSH in policy && POSTFLUSH in done ==> rq in dev.stable)
  }

  /** What its submitter was promised of a request: its data has been written, FUA data is stable, and so
      is everything that had completed before a PREFLUSH request was inserted. */
  ghost predicate Durable(dev: Device, inf: Info, before: set<Id>, rq: Id) {
    && (inf.sectors > 0 ==> rq in dev.completed)
    && (inf.fua && inf.sectors > 0 ==> rq in dev.stable)
    && (inf.preflush ==> before <= dev.stable)
  }

  ghost predicate DeviceInv(flags: Flags, dev: Device) {
    dev.stable <= dev.completed && (!flags.wc ==> dev.stable == dev.completed)
  }

  ghost predicate CreditedRq(flags: Flags, w: World, rq: Id, done: set<Step>)
    requires rq in w.info && rq in w.before
  {
    Credited(flags, w.dev, w.info[rq], w.before[rq], rq, done, rq !in w.forgiven)
  }

  ghost predicate CreditedFq(flags: Flags, w: World, fq: Fq) {
    && (forall rq :: fq.Waiting(rq) ==>
          rq in w.info && rq in w.before && CreditedRq(flags, w, rq, fq.Done(rq)))
    && (forall rq :: rq in fq.ended ==> rq in w.info && rq in w.before)
    && (forall rq :: EndedWith(fq, rq, OK) && rq !in w.forgiven ==>
          Durable(w.dev, w.info[rq], w.before[rq], rq))
  }

  /** What one more flush step of rq relies on. */
  ghost predicate Serves(w: World, covers: set<Id>, fq: Fq, rq: Id) {
    && (fq.Cur(rq) == PREFLUSH && rq in w.before ==> w.before[rq] <= covers)
    && (fq.Cur(rq) == POSTFLUSH ==> rq in covers)
  }

  /** The flush in flight covers what every request of the running list needs. */
  ghost predicate SentInv(w: World) {
    && (w.fq.flushRq == Idle ==> w.sent == Queued)
    && (w.sent != Queued ==> w.sent.covers <= w.dev.completed)
    && (w.sent != Queued ==>
          forall rq :: rq in w.fq.Running() ==> Serves(w, w.sent.covers, w.fq, rq))
    && (w.sent.Answered? && w.sent.error == OK ==> w.sent.covers <= w.dev.stable)
    && w.fq.rqStatus == if w.sent.Answered? && !w.sent.overwritten then w.sent.error else OK
  }

  ghost predicate BypassInv(flags: Flags, w: World) {
    forall rq :: rq in w.fq.bypass ==> rq in w.info && rq in w.before && Policy(flags, w.info[rq]) == {DATA}
  }

  /** Every inserted request is on a list, on its way round the sequencer, or has ended. */
  ghost predicate Accounted(w: World) {
    && w.before.Keys == w.info.Keys
    && (forall rq :: rq in w.info <==> w.fq.Waiting(rq) || rq in w.fq.bypass || rq in w.fq.ended)
    && (forall rq :: rq in w.before ==> w.before[rq] <= w.dev.completed)
  }

  ghost predicate WorldInv(flags: Flags, w: World) {
    && Inv(w.fq) && DeviceInv(flags, w.dev) && CreditedFq(flags, w, w.fq)
    && SentInv(w) && BypassInv(flags, w) && Accounted(w)
  }

  /** A request all of whose steps are recorded is durable. */
  lemma CreditedIsDurable(flags: Flags, dev: Device, inf: Info, before: set<Id>, rq: Id, done: set<Step>)
    requires DeviceInv(flags, dev) && Credited(flags, dev, inf, before, rq, done, true) && CurSeq(done) == DONE
    ensures Durable(dev, inf, before, rq)
  {
  }

  /** Recording steps that had their effect keeps every request credited, and ends only durable ones. */
  lemma AdvanceCredited(flags: Flags, w: World, fq: Fq, rq: Id, steps: set<Step>, error: Status, now: int)
    requires DeviceInv(flags, w.dev) && CreditedFq(flags, w, fq) && rq in w.info && rq in w.before
    requires error == OK ==> CreditedRq(flags, w, rq, fq.Done(rq) + steps)
    requires error != OK ==> !Advance(fq, rq, steps, error, now).Waiting(rq)
    requires rq !in fq.ended
    ensures CreditedFq(flags, w, Advance(fq, rq, steps, error, now))
  {
    AdvanceMovesOne(fq, rq, steps, error, now);
    MovedCredited(flags, w, fq, Advance(fq, rq, steps, error, now), rq, error);
  }

  lemma MovedCredited(flags: Flags, w: World, fq: Fq, a: Fq, rq: Id, error: Status)
    requires DeviceInv(flags, w.dev) && CreditedFq(flags, w, fq) && rq in w.info && rq in w.before
    requires error == OK ==> CreditedRq(flags, w, rq, a.Done(rq))
    requires error != OK ==> !a.Waiting(rq)
    requires MovesOne(fq, a, rq, error)
    ensures CreditedFq(flags, w, a)
  {
    if error == OK && a.Cur(rq) == DONE && rq !in w.forgiven {
      CreditedIsDurable(flags, w.dev, w.info[rq], w.before[rq], rq, a.Done(rq));
    }
  }

  /** g has the same requests as fq, unfinished or ended. */
  ghost predicate SameRequests(fq: Fq, g: Fq) {
    && g.bypass == fq.bypass
    && forall x :: g.Waiting(x) || x in g.ended <==> fq.Waiting(x) || x in fq.ended
  }

  /** A kick changes neither lists nor outcomes. */
  lemma KickCredited(flags: Flags, w: World, fq: Fq, a: Fq, rq: Id, error: Status, now: int)
    requires CreditedFq(flags, w, a) && MovesOne(fq, a, rq, error)
    ensures var g := KickFlush(a, now);
      CreditedFq(flags, w, g) && MovesOne(fq, g, rq, error) && g.bypass == a.bypass
  {
    var g := KickFlush(a, now);
    assert g == a.(pendingIdx := g.pendingIdx, flushRq := g.flushRq);
    forall x | g.Waiting(x) ensures x in w.info && x in w.before && CreditedRq(flags, w, x, g.Done(x)) {
      assert a.Waiting(x) && g.Done(x) == a.Done(x);
    }
    assert forall x :: EndedWith(g, x, OK) ==> EndedWith(a, x, OK);
  }

  lemma FailedLeaves(a: Fq, rq: Id)
    requires EndedOnce(a) && rq in a.ended
    ensures !a.Waiting(rq)
  {
  }

  lemma CompleteSeqCredited(flags: Flags, w: World, fq: Fq, rq: Id, steps: set<Step>, error: Status, now: int)
    requires DeviceInv(flags, w.dev) && CreditedFq(flags, w, fq) && Sound(fq)
    requires rq in w.info && rq in w.before && rq !in fq.ended && rq !in fq.bypass
    requires fq.Done(rq) * steps == {} && Shaped(fq.Done(rq) + steps)
    requires error == OK ==> CreditedRq(flags, w, rq, fq.Done(rq) + steps)
    ensures var g := CompleteSeq(fq, rq, steps, error, now);
      CreditedFq(flags, w, g) && MovesOne(fq, g, rq, error) && g.bypass == fq.bypass
  {
    var a := Advance(fq, rq, steps, error, now);
    AdvanceSound(fq, rq, steps, error, now);
    AdvanceMovesOne(fq, rq, steps, error, now);
    if error != OK {
      FailedEnds(fq, rq, steps, error, now);
      FailedLeaves(a, rq);
    }
    AdvanceCredited(flags, w, fq, rq, steps, error, now);
    KickCredited(flags, w, fq, a, rq, error, now);
  }

  /** A served request may be credited with its flush step. */
  lemma ServedStep(flags: Flags, w: World, fq: Fq, rq: Id)
    requires CreditedFq(flags, w, fq) && fq.Waiting(rq)
    requires rq !in w.forgiven ==> Serves(w, w.dev.stable, fq, rq)
    requires fq.Cur(rq) in {PREFLUSH, POSTFLUSH}
    ensures rq in w.info && rq in w.before
    ensures CreditedRq(flags, w, rq, fq.Done(rq) + {fq.Cur(rq)})
  {
    assert CreditedRq(flags, w, rq, fq.Done(rq));
  }

  /** All of l that are to earn their flush step are served by what is stable. */
  ghost predicate Earned(w: World, fq: Fq, l: seq<Id>) {
    forall x :: x in l && x !in w.forgiven ==> Serves(w, w.dev.stable, fq, x)
  }

  lemma MovedServed(w: World, fq: Fq, g: Fq, rq: Id, rest: seq<Id>, error: Status)
    requires MovesOne(fq, g, rq, error) && rq !in rest && Earned(w, fq, rest)
    ensures Earned(w, g, rest)
  {
    forall x | x in rest && x !in w.forgiven ensures Serves(w, w.dev.stable, g, x) {
      assert Serves(w, w.dev.stable, fq, x) && g.Done(x) == fq.Done(x);
    }
  }

  lemma MovedSameRequests(fq: Fq, g: Fq, rq: Id, error: Status)
    requires MovesOne(fq, g, rq, error) && g.bypass == fq.bypass && fq.Waiting(rq)
    ensures SameRequests(fq, g)
  {
  }

  lemma EndStepIsCompleteSeq(fq: Fq, rq: Id, error: Status, now: int)
    requires fq.Cur(rq) in {PREFLUSH, POSTFLUSH}
    ensures EndStep(fq, rq, error, now) == CompleteSeq(fq, rq, {fq.Cur(rq)}, error, now)
  {
    assert fq.(bug := fq.bug || fq.Cur(rq) !in {PREFLUSH, POSTFLUSH}) == fq;
  }

  /** The first request of a list that is being walked. */
  lemma WalkHead(fq: Fq, r: Index, rest: seq<Id>)
    requires WalkInv(fq, r, rest) && rest != []
    ensures fq.Waiting(rest[0]) && fq.Cur(rest[0]) in {PREFLUSH, POSTFLUSH} && rest[0] !in rest[1..]
    ensures rest[0] !in fq.ended && rest[0] !in fq.bypass && Shaped(fq.Done(rest[0]))
  {
    assert rest[0] in fq.Queue(r);
  }

  lemma EndStepCredited(flags: Flags, w: World, fq: Fq, r: Index, rest: seq<Id>, error: Status, now: int)
    requires DeviceInv(flags, w.dev) && CreditedFq(flags, w, fq) && WalkInv(fq, r, rest) && rest != []
    requires error == OK ==> Earned(w, fq, rest)
    ensures var g := EndStep(fq, rest[0], error, now);
      && CreditedFq(flags, w, g) && SameRequests(fq, g)
      && (error == OK ==> Earned(w, g, rest[1..]))
  {
    var rq := rest[0];
    WalkHead(fq, r, rest);
    AfterFlush(fq.Done(rq));
    if error == OK { ServedStep(flags, w, fq, rq); }
    CompleteSeqCredited(flags, w, fq, rq, {fq.Cur(rq)}, error, now);
    EndStepIsCompleteSeq(fq, rq, error, now);
    var g := EndStep(fq, rq, error, now);
    MovedSameRequests(fq, g, rq, error);
    if error == OK { MovedServed(w, fq, g, rq, rest[1..], error); }
  }

  /** The end of a flush credits every request that waited for it with a step the flush performed. */
  lemma {:induction false} EndAllCredited(flags: Flags, w: World, fq: Fq, r: Index, rest: seq<Id>,
                                          error: Status, now: int)
    requires DeviceInv(flags, w.dev) && CreditedFq(flags, w, fq) && WalkInv(fq, r, rest)
    requires error == OK ==> Earned(w, fq, rest)
    ensures var g := EndAll(fq, rest, error, now); CreditedFq(flags, w, g) && SameRequests(fq, g)
    decreases |rest|
  {
    if rest != [] {
      EndStepInv(fq, r, rest, error, now);
      EndStepCredited(flags, w, fq, r, rest, error, now);
      EndAllCredited(flags, w, EndStep(fq, rest[0], error, now), r, rest[1..], error, now);
    }
  }

  /** While a flush is in flight, other completions leave the running list as it is. */
  lemma CompleteSeqRunning(fq: Fq, rq: Id, steps: set<Step>, error: Status, now: int)
    requires Sound(fq) && Indexed(fq) && rq !in fq.queue0 && rq !in fq.queue1 && fq.flushRq != Idle
    ensures var g := CompleteSeq(fq, rq, steps, error, now);
      g.runningIdx == fq.runningIdx && g.Queue(g.runningIdx) == fq.Queue(fq.runningIdx)
      && g.flushRq == fq.flushRq && g.rqStatus == fq.rqStatus
  {
    AdvanceQueues(fq, rq, steps, error, now);
  }

  // ----- Every event keeps the invariant -----

  /** Data once completed or stable stays so, and credits stay earned. */
  lemma GrownCredited(flags: Flags, w: World, v: World, fq: Fq)
    requires CreditedFq(flags, w, fq)
    requires v.info == w.info && v.before == w.before && w.forgiven <= v.forgiven
    requires w.dev.completed <= v.dev.completed && w.dev.stable <= v.dev.stable
    ensures CreditedFq(flags, v, fq)
  {
    forall rq | fq.Waiting(rq)
      ensures rq in v.info && rq in v.before && CreditedRq(flags, v, rq, fq.Done(rq))
    {
      assert CreditedRq(flags, w, rq, fq.Done(rq));
    }
  }

  /** The flush in flight still serves its waiters if none of them has moved. */
  lemma RunningServed(w: World, v: World, rq: Id)
    requires SentInv(w) && w.fq.flushRq != Idle && Accounted(w) && Inv(w.fq)
    requires v.sent == w.sent && w.dev.completed <= v.dev.completed && w.dev.stable <= v.dev.stable
    requires v.fq.flushRq == w.fq.flushRq && v.fq.rqStatus == w.fq.rqStatus
    requires v.fq.Running() == w.fq.Running() && rq !in w.fq.Running()
    requires forall x :: x != rq ==> v.fq.Done(x) == w.fq.Done(x)
    requires forall x :: x != rq && x in w.before ==> x in v.before && v.before[x] == w.before[x]
    ensures SentInv(v)
  {
    if w.sent != Queued {
      forall x | x in v.fq.Running() ensures Serves(v, v.sent.covers, v.fq, x) {
        assert Serves(w, w.sent.covers, w.fq, x);
        assert w.fq.Waiting(x);
      }
    }
  }

  lemma IdleSent(v: World)
    requires v.sent == Queued && v.fq.rqStatus == OK
    ensures SentInv(v)
  {
  }

  lemma CompleteSeqRqStatus(fq: Fq, rq: Id, steps: set<Step>, error: Status, now: int)
    ensures CompleteSeq(fq, rq, steps, error, now).rqStatus == fq.rqStatus
  {
  }

  /** One request on neither queue completes steps: the flush in flight is not disturbed. */
  lemma CompleteSeqSent(w: World, v: World, fq: Fq, rq: Id, steps: set<Step>, error: Status, now: int)
    requires SentInv(w) && Accounted(w) && Inv(w.fq)
    requires fq == w.fq.(done := fq.done) && Sound(fq) && Indexed(fq)
    requires forall x :: x != rq ==> fq.Done(x) == w.fq.Done(x)
    requires rq !in fq.queue0 && rq !in fq.queue1
    requires v.fq == CompleteSeq(fq, rq, steps, error, now) && v.sent == w.sent
    requires w.dev.completed <= v.dev.completed && w.dev.stable <= v.dev.stable
    requires forall x :: x != rq && x in w.before ==> x in v.before && v.before[x] == w.before[x]
    requires MovesOne(fq, v.fq, rq, error)
    ensures SentInv(v)
  {
    CompleteSeqRqStatus(fq, rq, steps, error, now);
    if w.fq.flushRq == Idle {
      IdleSent(v);
    } else {
      CompleteSeqRunning(fq, rq, steps, error, now);
      RunningServed(w, v, rq);
    }
  }

  /** The new request is known; nothing that was known changes. */
  lemma NewRequestCredited(flags: Flags, w: World, v: World, fq: Fq, rq: Id)
    requires CreditedFq(flags, w, w.fq) && rq !in w.info && Accounted(w)
    requires v.dev == w.dev && rq in v.info && rq in v.before && v.forgiven == w.forgiven
    requires v.info == w.info[rq := v.info[rq]] && v.before == w.before[rq := v.before[rq]]
    requires fq == w.fq.(done := w.fq.done[rq := {}])
    ensures CreditedFq(flags, v, fq)
  {
    assert !w.fq.Waiting(rq) && rq !in w.fq.ended;
    assert forall x :: x != rq ==> fq.Done(x) == w.fq.Done(x);
    assert forall x :: x != rq && x in w.info ==> v.info[x] == w.info[x] && v.before[x] == w.before[x];
  }

  /** v is w with request rq inserted and the sequencer in state g. */
  function Inserted(w: World, rq: Id, inf: Info, g: Fq): World {
    w.(fq := g, info := w.info[rq := inf], before := w.before[rq := w.dev.completed])
  }

  /** A sequencer with the same waiting requests keeps them credited when rq becomes known. */
  lemma InsertedCredited(flags: Flags, w: World, rq: Id, inf: Info, g: Fq)
    requires CreditedFq(flags, w, w.fq) && Accounted(w) && rq !in w.info
    requires forall x :: g.Waiting(x) ==> w.fq.Waiting(x) && g.Done(x) == w.fq.Done(x)
    requires forall x :: x in g.ended ==> x in w.fq.ended || x == rq
    requires forall x :: x in w.fq.result && x in g.result && x != rq ==> g.result[x] == w.fq.result[x]
    requires forall x :: x in g.result && x != rq ==> x in w.fq.result
    requires EndedWith(g, rq, OK) ==> Durable(w.dev, inf, w.dev.completed, rq)
    ensures CreditedFq(flags, Inserted(w, rq, inf, g), g)
  {
    var v := Inserted(w, rq, inf, g);
    forall x | g.Waiting(x) ensures x in v.info && x in v.before && CreditedRq(flags, v, x, g.Done(x)) {
      assert w.fq.Waiting(x) && CreditedRq(flags, w, x, w.fq.Done(x));
    }
  }

  /** A request that goes to no list of the sequencer leaves the flush in flight alone. */
  lemma InsertedSent(w: World, rq: Id, inf: Info, g: Fq)
    requires SentInv(w) && Inv(w.fq) && Accounted(w) && rq !in w.info
    requires g == w.fq.(bypass := g.bypass, ended := g.ended, result := g.result)
    ensures SentInv(Inserted(w, rq, inf, g))
  {
    var v := Inserted(w, rq, inf, g);
    if w.fq.flushRq != Idle { RunningServed(w, v, rq); }
  }

  lemma InsertEmptyInv(flags: Flags, w: World, rq: Id, inf: Info, now: int)
    requires WorldInv(flags, w) && Enabled(flags, w, Insert(rq, inf, now)) && Policy(flags, inf) == {}
    ensures WorldInv(flags, Apply(flags, w, Insert(rq, inf, now)))
  {
    var g := EndRequest(w.fq, rq, OK);
    InsertFlushInv(w.fq, flags, rq, inf, now);
    NoPolicyIsDurable(flags, w.dev, inf, rq);
    InsertedCredited(flags, w, rq, inf, g);
    InsertedSent(w, rq, inf, g);
    EmptyAccounted(flags, w, rq, inf);
  }

  lemma EmptyAccounted(flags: Flags, w: World, rq: Id, inf: Info)
    requires BypassInv(flags, w) && Accounted(w) && rq !in w.info
    ensures var v := Inserted(w, rq, inf, EndRequest(w.fq, rq, OK)); BypassInv(flags, v) && Accounted(v)
  {
  }

  lemma NoPolicyIsDurable(flags: Flags, dev: Device, inf: Info, rq: Id)
    requires Policy(flags, inf) == {} && DeviceInv(flags, dev)
    ensures Durable(dev, inf, dev.completed, rq)
  {
    assert DATA !in Policy(flags, inf) && PREFLUSH !in Policy(flags, inf);
  }

  lemma InsertBypassInv(flags: Flags, w: World, rq: Id, inf: Info, now: int)
    requires WorldInv(flags, w) && Enabled(flags, w, Insert(rq, inf, now)) && Policy(flags, inf) == {DATA}
    ensures WorldInv(flags, Apply(flags, w, Insert(rq, inf, now)))
  {
    var g := w.fq.(bypass := w.fq.bypass + [rq]);
    InsertFlushInv(w.fq, flags, rq, inf, now);
    InsertedCredited(flags, w, rq, inf, g);
    InsertedSent(w, rq, inf, g);
  }

  /** A sequenced request starts with the steps it does not need recorded. */
  lemma FirstCredit(flags: Flags, dev: Device, inf: Info, rq: Id)
    requires POSTFLUSH in Policy(flags, inf) ==> DATA in Policy(flags, inf)
    ensures Credited(flags, dev, inf, dev.completed, rq, {} + (ACTIONS - Policy(flags, inf)), true)
    ensures Shaped({} + (ACTIONS - Policy(flags, inf)))
  {
  }

  /** Completing the steps that rq does not need puts it on its first list. */
  lemma SequencedCredited(flags: Flags, w: World, v: World, f: Fq, rq: Id, inf: Info, now: int)
    requires WorldInv(flags, w) && rq !in w.info && (POSTFLUSH in Policy(flags, inf) ==> DATA in Policy(flags, inf))
    requires f == w.fq.(done := w.fq.done[rq := {}])
    requires v == Inserted(w, rq, inf, CompleteSeq(f, rq, ACTIONS - Policy(flags, inf), OK, now))
    ensures CreditedFq(flags, v, v.fq) && MovesOne(f, v.fq, rq, OK) && v.fq.bypass == f.bypass
    ensures Sound(f) && Indexed(f) && rq !in f.queue0 && rq !in f.queue1
  {
    FreshSound(w, f, rq);
    NewRequestCredited(flags, w, v, f, rq);
    FirstCredit(flags, w.dev, inf, rq);
    CompleteSeqCredited(flags, v, f, rq, ACTIONS - Policy(flags, inf), OK, now);
  }

  lemma InsertSequencedInv(flags: Flags, w: World, rq: Id, inf: Info, now: int)
    requires WorldInv(flags, w) && Enabled(flags, w, Insert(rq, inf, now))
    requires Policy(flags, inf) != {} && Policy(flags, inf) != {DATA}
    ensures WorldInv(flags, Apply(flags, w, Insert(rq, inf, now)))
  {
    var f := w.fq.(done := w.fq.done[rq := {}]);
    var v := Inserted(w, rq, inf, CompleteSeq(f, rq, ACTIONS - Policy(flags, inf), OK, now));
    InsertFlushInv(w.fq, flags, rq, inf, now);
    SequencedCredited(flags, w, v, f, rq, inf, now);
    SequencedSent(w, v, f, rq, inf, ACTIONS - Policy(flags, inf), now);
    SequencedAccounted(flags, w, v, f, rq, inf);
    assert v == Apply(flags, w, Insert(rq, inf, now));
  }

  lemma SequencedSent(w: World, v: World, f: Fq, rq: Id, inf: Info, steps: set<Step>, now: int)
    requires SentInv(w) && Accounted(w) && Inv(w.fq) && f == w.fq.(done := w.fq.done[rq := {}])
    requires v == Inserted(w, rq, inf, CompleteSeq(f, rq, steps, OK, now)) && MovesOne(f, v.fq, rq, OK)
    requires Sound(f) && Indexed(f) && rq !in f.queue0 && rq !in f.queue1
    ensures SentInv(v)
  {
    CompleteSeqSent(w, v, f, rq, steps, OK, now);
  }

  lemma SequencedAccounted(flags: Flags, w: World, v: World, f: Fq, rq: Id, inf: Info)
    requires Accounted(w) && BypassInv(flags, w) && rq !in w.info
    requires f == w.fq.(done := f.done) && v == Inserted(w, rq, inf, v.fq)
    requires MovesOne(f, v.fq, rq, OK) && v.fq.bypass == f.bypass
    ensures Accounted(v) && BypassInv(flags, v)
  {
    InsertAccounted(w, v, f, rq);
  }

  lemma FreshSound(w: World, f: Fq, rq: Id)
    requires Inv(w.fq) && Accounted(w) && rq !in w.info && f == w.fq.(done := w.fq.done[rq := {}])
    ensures Sound(f) && Indexed(f) && rq !in f.ended && rq !in f.bypass && !f.Waiting(rq) && f.Done(rq) == {}
  {
    assert forall x :: x != rq ==> f.Done(x) == w.fq.Done(x);
  }

  lemma InsertAccounted(w: World, v: World, f: Fq, rq: Id)
    requires Accounted(w) && rq in v.info && rq in v.before && v.before[rq] <= v.dev.completed
    requires v.info == w.info[rq := v.info[rq]] && v.before == w.before[rq := v.before[rq]] && v.dev == w.dev
    requires f == w.fq.(done := f.done) && MovesOne(f, v.fq, rq, OK) && v.fq.bypass == f.bypass
    ensures Accounted(v)
  {
  }

  lemma InsertInv(flags: Flags, w: World, rq: Id, inf: Info, now: int)
    requires WorldInv(flags, w) && Enabled(flags, w, Insert(rq, inf, now))
    ensures WorldInv(flags, Apply(flags, w, Insert(rq, inf, now)))
  {
    if Policy(flags, inf) == {} {
      InsertEmptyInv(flags, w, rq, inf, now);
    } else if Policy(flags, inf) == {DATA} {
      InsertBypassInv(flags, w, rq, inf, now);
    } else {
      InsertSequencedInv(flags, w, rq, inf, now);
    }
  }

  lemma WriteInv(flags: Flags, w: World, d: Id)
    requires WorldInv(flags, w) && Enabled(flags, w, Write(d))
    ensures WorldInv(flags, Apply(flags, w, Write(d)))
  {
    GrownCredited(flags, w, Apply(flags, w, Write(d)), w.fq);
  }

  lemma DestageInv(flags: Flags, w: World, d: Id)
    requires WorldInv(flags, w) && Enabled(flags, w, Destage(d))
    ensures WorldInv(flags, Apply(flags, w, Destage(d)))
  {
    GrownCredited(flags, w, Apply(flags, w, Destage(d)), w.fq);
  }

  lemma DispatchInv(flags: Flags, w: World)
    requires WorldInv(flags, w) && Enabled(flags, w, Dispatch)
    ensures WorldInv(flags, Apply(flags, w, Dispatch))
  {
    forall rq | rq in w.fq.Running() ensures Serves(w, w.dev.completed, w.fq, rq) {
      assert w.fq.Waiting(rq);
      assert CreditedRq(flags, w, rq, w.fq.Done(rq));
      assert Shaped(w.fq.Done(rq));
    }
  }

  /** A request that needed no flush is durable as soon as its data has been written. */
  lemma BypassDurable(flags: Flags, w: World, v: World, rq: Id)
    requires DeviceInv(flags, v.dev) && rq in w.info && rq in w.before && w.before[rq] <= w.dev.completed
    requires Policy(flags, w.info[rq]) == {DATA} && v.dev == WroteRq(flags, w, rq, OK)
    ensures Durable(v.dev, w.info[rq], w.before[rq], rq)
  {
    var policy := Policy(flags, w.info[rq]);
    assert DATA in policy && PREFLUSH !in policy && POSTFLUSH !in policy;
  }

  lemma BypassDoneFq(fq: Fq, rq: Id, error: Status)
    requires Inv(fq) && rq in fq.bypass
    ensures var g := EndRequest(fq.(bypass := Remove(fq.bypass, rq)), rq, error);
      Inv(g) && forall x :: x in g.bypass <==> x in fq.bypass && x != rq
  {
    RemoveDistinct(fq.bypass, rq);
    EndRequestEndedOnce(fq.(bypass := Remove(fq.bypass, rq)), rq, error);
  }

  lemma UnmovedServed(w: World, v: World)
    requires SentInv(w) && v.sent == w.sent && v.before == w.before
    requires w.dev.completed <= v.dev.completed && w.dev.stable <= v.dev.stable
    requires v.fq.queue0 == w.fq.queue0 && v.fq.queue1 == w.fq.queue1 && v.fq.runningIdx == w.fq.runningIdx
    requires v.fq.done == w.fq.done && v.fq.flushRq == w.fq.flushRq && v.fq.rqStatus == w.fq.rqStatus
    ensures SentInv(v)
  {
    if w.sent != Queued {
      forall x | x in v.fq.Running() ensures Serves(v, v.sent.covers, v.fq, x) {
        assert Serves(w, w.sent.covers, w.fq, x) && v.fq.Done(x) == w.fq.Done(x);
      }
    }
  }

  lemma BypassDoneInv(flags: Flags, w: World, rq: Id, error: Status)
    requires WorldInv(flags, w) && Enabled(flags, w, BypassDone(rq, error))
    ensures WorldInv(flags, Apply(flags, w, BypassDone(rq, error)))
  {
    var v := Apply(flags, w, BypassDone(rq, error));
    var u := w.fq.(bypass := Remove(w.fq.bypass, rq));
    BypassDoneFq(w.fq, rq, error);
    GrownCredited(flags, w, v, w.fq);
    if error == OK { BypassDurable(flags, w, v, rq); }
    UnmovedCredited(flags, v, w.fq, u);
    EndedCredited(flags, v, u, rq, error);
    UnmovedServed(w, v);
  }

  lemma UnmovedCredited(flags: Flags, v: World, fq: Fq, u: Fq)
    requires CreditedFq(flags, v, fq) && u == fq.(bypass := u.bypass)
    ensures CreditedFq(flags, v, u)
  {
    assert forall x :: u.Waiting(x) ==> fq.Waiting(x) && u.Done(x) == fq.Done(x);
  }

  lemma EndedCredited(flags: Flags, w: World, fq: Fq, rq: Id, error: Status)
    requires CreditedFq(flags, w, fq) && rq in w.info && rq in w.before && !fq.Waiting(rq)
    requires error == OK ==> Durable(w.dev, w.info[rq], w.before[rq], rq)
    ensures CreditedFq(flags, w, EndRequest(fq, rq, error))
  {
    var g := EndRequest(fq, rq, error);
    assert forall x :: g.Waiting(x) ==> fq.Waiting(x) && g.Done(x) == fq.Done(x);
  }

  /** The write of the DATA step has reached the device when the step is recorded. */
  lemma DataCredit(flags: Flags, w: World, v: World, rq: Id)
    requires CreditedFq(flags, w, w.fq) && w.fq.Waiting(rq) && w.fq.Cur(rq) == DATA
    requires v.dev == WroteRq(flags, w, rq, OK) && v.info == w.info && v.before == w.before && v.forgiven == w.forgiven
    ensures rq in v.info && rq in v.before
    ensures CreditedRq(flags, v, rq, w.fq.Done(rq) + {DATA})
  {
    assert CreditedRq(flags, w, rq, w.fq.Done(rq));
  }

  lemma DataDoneInv(flags: Flags, w: World, rq: Id, error: Status, now: int)
    requires WorldInv(flags, w) && Enabled(flags, w, DataDone(rq, error, now))
    ensures WorldInv(flags, Apply(flags, w, DataDone(rq, error, now)))
  {
    var v := Apply(flags, w, DataDone(rq, error, now));
    DataEndIoInv(w.fq, rq, error, now);
    GrownCredited(flags, w, v, w.fq);
    DataHead(w.fq, rq);
    if error == OK { DataCredit(flags, w, v, rq); }
    CompleteSeqCredited(flags, v, w.fq, rq, {DATA}, error, now);
    CompleteSeqSent(w, v, w.fq, rq, {DATA}, error, now);
    MovedSameRequests(w.fq, v.fq, rq, error);
    SameAccounted(w, v);
  }

  lemma DataHead(fq: Fq, rq: Id)
    requires Inv(fq) && rq in fq.inFlight
    ensures fq.Waiting(rq) && fq.Cur(rq) == DATA && rq !in fq.queue0 && rq !in fq.queue1
    ensures rq !in fq.ended && rq !in fq.bypass
    ensures fq.Done(rq) * {DATA} == {} && Shaped(fq.Done(rq) + {DATA})
  {
  }

  lemma SameAccounted(w: World, v: World)
    requires Accounted(w) && SameRequests(w.fq, v.fq)
    requires v.info == w.info && v.before == w.before && w.dev.completed <= v.dev.completed
    ensures Accounted(v)
  {
  }

  /** flush_end_io with the last reference. */
  lemma FlushEndInv(flags: Flags, w: World, v: World, error: Status, now: int)
    requires Inv(w.fq) && w.fq.Refs() == 1 && DeviceInv(flags, v.dev) && Accounted(w) && BypassInv(flags, w)
    requires v.fq == FlushEndIo(w.fq, error, now) && v.sent == Queued
    requires v.info == w.info && v.before == w.before && w.dev.completed <= v.dev.completed
    requires CreditedFq(flags, v, w.fq)
    requires WalkStatus(w.fq, error) == OK ==> Earned(v, w.fq, w.fq.Running())
    ensures WorldInv(flags, v)
  {
    var f, l, err := FinishFlush(w.fq), w.fq.Running(), WalkStatus(w.fq, error);
    FlushEndIoInv(w.fq, error, now);
    FinishFlushWalks(w.fq);
    FinishCredited(flags, v, w.fq);
    if err == OK { FinishServed(v, w.fq, l); }
    EndAllCredited(flags, v, f, w.fq.runningIdx, l, err, now);
    EndAllRqStatus(f, l, err, now);
    SameAccounted(w, v);
  }

  lemma FinishCredited(flags: Flags, v: World, fq: Fq)
    requires CreditedFq(flags, v, fq)
    ensures CreditedFq(flags, v, FinishFlush(fq))
  {
    var f := FinishFlush(fq);
    assert forall x :: f.Waiting(x) ==> fq.Waiting(x) && f.Done(x) == fq.Done(x);
  }

  lemma FinishServed(v: World, fq: Fq, l: seq<Id>)
    requires Earned(v, fq, l)
    ensures Earned(v, FinishFlush(fq), l)
  {
    var f := FinishFlush(fq);
    forall rq | rq in l && rq !in v.forgiven ensures Serves(v, v.dev.stable, f, rq) {
      assert Serves(v, v.dev.stable, fq, rq) && f.Done(rq) == fq.Done(rq);
    }
  }

  lemma {:induction false} EndAllRqStatus(fq: Fq, l: seq<Id>, error: Status, now: int)
    ensures EndAll(fq, l, error, now).rqStatus == fq.rqStatus
    decreases |l|
  {
    if l != [] {
      EndAllRqStatus(EndStep(fq, l[0], error, now), l[1..], error, now);
    }
  }

  /** The requests that the flush in flight serves have earned their step once the device has
      performed it. */
  lemma ServedEarned(w: World, v: World)
    requires SentInv(w) && w.sent != Queued && w.sent.covers <= v.dev.stable && v.before == w.before
    ensures Earned(v, w.fq, w.fq.Running())
  {
    forall rq | rq in w.fq.Running() ensures Serves(v, v.dev.stable, w.fq, rq) {
      assert Serves(w, w.sent.covers, w.fq, rq);
    }
  }

  /** Only the count and the status of the flush request change. */
  ghost predicate OnlyRefs(fq: Fq, f: Fq) {
    f == fq.(rqStatus := f.rqStatus, flushRq := f.flushRq) && fq.flushRq.Issued? && f.flushRq.Issued?
  }

  lemma RefsCredited(flags: Flags, v: World, fq: Fq, f: Fq)
    requires CreditedFq(flags, v, fq) && OnlyRefs(fq, f)
    ensures CreditedFq(flags, v, f) && SameRequests(fq, f)
  {
    assert forall x :: f.Waiting(x) ==> fq.Waiting(x) && f.Done(x) == fq.Done(x);
  }

  lemma RefsServed(w: World, v: World)
    requires SentInv(w) && OnlyRefs(w.fq, v.fq) && v.before == w.before && w.dev.completed <= v.dev.completed
    requires w.sent != Queued ==> v.sent != Queued && v.sent.covers == w.sent.covers
    requires w.sent == Queued ==> v.sent == Queued
    requires v.sent.Answered? && v.sent.error == OK ==> v.sent.covers <= v.dev.stable
    requires v.fq.rqStatus == if v.sent.Answered? && !v.sent.overwritten then v.sent.error else OK
    ensures SentInv(v)
  {
    if w.sent != Queued {
      forall rq | rq in v.fq.Running() ensures Serves(v, v.sent.covers, v.fq, rq) {
        assert Serves(w, w.sent.covers, w.fq, rq) && v.fq.Done(rq) == w.fq.Done(rq);
      }
    }
  }

  lemma FlushDoneInv(flags: Flags, w: World, error: Status, now: int)
    requires WorldInv(flags, w) && Enabled(flags, w, FlushDone(error, now))
    ensures WorldInv(flags, Apply(flags, w, FlushDone(error, now)))
  {
    var v := Apply(flags, w, FlushDone(error, now));
    GrownCredited(flags, w, v, w.fq);
    if w.fq.Refs() == 1 {
      if error == OK { ServedEarned(w, v); }
      FlushEndInv(flags, w, v, error, now);
    } else {
      FlushEndIoInv(w.fq, error, now);
      RefsCredited(flags, v, w.fq, v.fq);
      RefsServed(w, v);
      SameAccounted(w, v);
    }
  }

  lemma GetInv(flags: Flags, w: World)
    requires WorldInv(flags, w) && Enabled(flags, w, Get)
    ensures WorldInv(flags, Apply(flags, w, Get))
  {
    var v := Apply(flags, w, Get);
    GetRefInv(w.fq);
    GrownCredited(flags, w, v, w.fq);
    RefsCredited(flags, v, w.fq, v.fq);
    RefsServed(w, v);
    SameAccounted(w, v);
  }

  /** Dropping the last reference earns the waiters their step, or fails them, or forgives them. */
  lemma PutInv(flags: Flags, w: World, now: int)
    requires WorldInv(flags, w) && Enabled(flags, w, Put(now))
    ensures WorldInv(flags, Apply(flags, w, Put(now)))
  {
    var v := Apply(flags, w, Put(now));
    GrownCredited(flags, w, v, w.fq);
    if w.fq.Refs() == 1 {
      if w.sent.error == OK { ServedEarned(w, v); }
      FlushEndInv(flags, w, v, OK, now);
    } else {
      FlushEndIoInv(w.fq, OK, now);
      RefsCredited(flags, v, w.fq, v.fq);
      RefsServed(w, v);
      SameAccounted(w, v);
    }
  }

  lemma EventInv(flags: Flags, w: World, e: Event)
    requires WorldInv(flags, w) && Enabled(flags, w, e)
    ensures WorldInv(flags, Apply(flags, w, e))
  {
    match e
    case Insert(rq, inf, now) => InsertInv(flags, w, rq, inf, now);
    case Write(d) => WriteInv(flags, w, d);
    case Destage(d) => DestageInv(flags, w, d);
    case BypassDone(rq, error) => BypassDoneInv(flags, w, rq, error);
    case DataDone(rq, error, now) => DataDoneInv(flags, w, rq, error, now);
    case Dispatch => DispatchInv(flags, w);
    case FlushDone(error, now) => FlushDoneInv(flags, w, error, now);
    case Get => GetInv(flags, w);
    case Put(now) => PutInv(flags, w, now);
  }

  lemma {:induction false} RunInv(flags: Flags, w: World, es: seq<Event>, v: World)
    requires WorldInv(flags, w) && IsRun(flags, w, es, v)
    ensures WorldInv(flags, v)
    decreases |es|
  {
    if es != [] {
      EventInv(flags, w, es[0]);
      RunInv(flags, Apply(flags, w, es[0]), es[1..], v);
    }
  }

  lemma StartInv(flags: Flags)
    ensures WorldInv(flags, Start())
  {
  }

  /** What holds for the submitter of rq in a state of a run: once it has ended without error its data
      has been written, its FUA data is stable, and what had completed before a PREFLUSH request was
      inserted is stable by the time its own data may be written or it has ended. */
  ghost predicate Promised(v: World, rq: Id)
    requires rq in v.info && rq in v.before
  {
    && (EndedWith(v.fq, rq, OK) ==> Durable(v.dev, v.info[rq], v.before[rq], rq))
    && ((rq in v.fq.inFlight || rq in v.fq.bypass) && v.info[rq].preflush ==> v.before[rq] <= v.dev.stable)
  }

  /** In every state of every run every inserted request gets what was promised, unless it was given a
      failed flush as a success. No BUG_ON has fired. */
  lemma RunsAreDurable(flags: Flags, es: seq<Event>, v: World)
    requires IsRun(flags, Start(), es, v)
    ensures !v.fq.bug && Inv(v.fq)
    ensures v.info.Keys == v.before.Keys
    ensures forall rq :: rq in v.info && rq !in v.forgiven ==> Promised(v, rq)
  {
    StartInv(flags);
    RunInv(flags, Start(), es, v);
    forall rq | rq in v.info && rq !in v.forgiven ensures Promised(v, rq) {
      if rq in v.fq.inFlight {
        assert v.fq.Waiting(rq) && v.fq.Cur(rq) == DATA;
        assert CreditedRq(flags, v, rq, v.fq.Done(rq));
      }
      if rq in v.fq.bypass {
        assert Policy(flags, v.info[rq]) == {DATA} && PREFLUSH !in Policy(flags, v.info[rq]);
      }
    }
  }

  // ----- Progress and termination -----

  predicate Completion(e: Event) { !e.Insert? && !e.Write? && !e.Destage? && !e.Get? }

  predicate Quiescent(fq: Fq) {
    fq.queue0 == [] && fq.queue1 == [] && fq.inFlight == [] && fq.bypass == []
  }

  /** The sequencer is never stuck: while a request is unfinished, the device has something to do
      whose completion moves the sequencer on. */
  lemma Progress(flags: Flags, w: World) returns (e: Event)
    requires WorldInv(flags, w) && !Quiescent(w.fq)
    ensures Completion(e) && Enabled(flags, w, e)
  {
    if w.fq.bypass != [] {
      e := BypassDone(w.fq.bypass[0], OK);
    } else if w.fq.inFlight != [] {
      e := DataDone(w.fq.inFlight[0], OK, 0);
    } else {
      assert w.fq.flushRq != Idle;
      e := match w.sent
        case Queued => Dispatch
        case AtDevice(_) => FlushDone(OK, 0)
        case Answered(_, _, _) => Put(0);
    }
  }

  function StepsLeft(done: set<Step>): nat {
    (if PREFLUSH in done then 0 else 1) + (if DATA in done then 0 else 1) + (if POSTFLUSH in done then 0 else 1)
  }

  /** The steps the requests of a list still have to take. */
  function Left(fq: Fq, l: seq<Id>): nat {
    if l == [] then 0 else StepsLeft(fq.Done(l[0])) + Left(fq, l[1..])
  }

  function Work(fq: Fq): nat { Left(fq, fq.queue0) + Left(fq, fq.queue1) + Left(fq, fq.inFlight) }

  function Flight(w: World): nat {
    if w.fq.flushRq == Idle then 0
    else w.fq.Refs() + match w.sent case Queued => 2 case AtDevice(_) => 1 case Answered(_, _, _) => 0
  }

  function Measure(w: World): nat { 4 * Work(w.fq) + |w.fq.bypass| + Flight(w) }

  lemma {:induction false} LeftSame(fq: Fq, g: Fq, l: seq<Id>)
    requires forall x :: x in l ==> g.Done(x) == fq.Done(x)
    ensures Left(g, l) == Left(fq, l)
  {
    if l != [] { LeftSame(fq, g, l[1..]); }
  }

  lemma {:induction false} LeftAppend(fq: Fq, l: seq<Id>, x: Id)
    ensures Left(fq, l + [x]) == Left(fq, l) + StepsLeft(fq.Done(x))
  {
    if l != [] {
      LeftAppend(fq, l[1..], x);
      assert (l + [x])[1..] == l[1..] + [x];
    }
  }

  lemma {:induction false} LeftRemove(fq: Fq, l: seq<Id>, x: Id)
    ensures Left(fq, Remove(l, x)) == Left(fq, l) - (if x in l then StepsLeft(fq.Done(x)) else 0)
  {
    if l != [] && l[0] != x {
      LeftRemove(fq, l[1..], x);
      assert Remove(l, x)[1..] == Remove(l[1..], x);
    }
  }

  lemma UnlinkWork(fq: Fq, rq: Id)
    requires Linked(fq)
    ensures Work(Unlink(fq, rq)) == Work(fq) - (if fq.Waiting(rq) then StepsLeft(fq.Done(rq)) else 0)
  {
    var u := Unlink(fq, rq);
    LeftRemove(fq, fq.queue0, rq);
    LeftRemove(fq, fq.queue1, rq);
    LeftRemove(fq, fq.inFlight, rq);
    LeftSame(fq, u, u.queue0);
    LeftSame(fq, u, u.queue1);
    LeftSame(fq, u, u.inFlight);
  }

  /** A request at the end of the pending queue, or of flush_data_in_flight, brings the steps it has left. */
  lemma PendingWork(u: Fq, g: Fq, rq: Id)
    requires g.done == u.done && g.inFlight == u.inFlight
    requires g.queue0 == if u.pendingIdx == 0 then u.queue0 + [rq] else u.queue0
    requires g.queue1 == if u.pendingIdx == 0 then u.queue1 else u.queue1 + [rq]
    ensures Work(g) == Work(u) + StepsLeft(u.Done(rq))
  {
    LeftSame(u, g, g.queue0);
    LeftSame(u, g, g.queue1);
    LeftSame(u, g, g.inFlight);
    LeftAppend(u, u.Pending(), rq);
  }

  lemma DataWork(u: Fq, g: Fq, rq: Id)
    requires g.done == u.done && g.queue0 == u.queue0 && g.queue1 == u.queue1 && g.inFlight == u.inFlight + [rq]
    ensures Work(g) == Work(u) + StepsLeft(u.Done(rq))
  {
    LeftSame(u, g, g.queue0);
    LeftSame(u, g, g.queue1);
    LeftSame(u, g, g.inFlight);
    LeftAppend(u, u.inFlight, rq);
  }

  /** Wherever rq goes, it brings at most the steps it has left. */
  lemma MoveOnWork(fq: Fq, rq: Id, step: Step, error: Status, now: int)
    ensures Work(MoveOn(fq, rq, step, error, now)) <= Work(Unlink(fq, rq)) + StepsLeft(fq.Done(rq))
  {
    var u, g := Unlink(fq, rq), MoveOn(fq, rq, step, error, now);
    match step
    case PREFLUSH | POSTFLUSH => PendingWork(u, g, rq);
    case DATA => DataWork(u, g, rq);
    case DONE => SameListsWork(u, g);
  }

  lemma RecordWork(fq: Fq, rq: Id, steps: set<Step>)
    requires Linked(fq)
    ensures Work(Unlink(Record(fq, rq, steps), rq)) == Work(Unlink(fq, rq))
  {
    var u, v := Unlink(fq, rq), Unlink(Record(fq, rq, steps), rq);
    RemoveDistinct(fq.queue0, rq);
    RemoveDistinct(fq.queue1, rq);
    RemoveDistinct(fq.inFlight, rq);
    LeftSame(u, v, u.queue0);
    LeftSame(u, v, u.queue1);
    LeftSame(u, v, u.inFlight);
  }

  lemma CompleteSeqWork(fq: Fq, rq: Id, steps: set<Step>, error: Status, now: int)
    requires Linked(fq)
    ensures Work(CompleteSeq(fq, rq, steps, error, now)) <=
      Work(fq) - (if fq.Waiting(rq) then StepsLeft(fq.Done(rq)) else 0) + StepsLeft(fq.Done(rq) + steps)
  {
    var f := Record(fq, rq, steps);
    UnlinkWork(fq, rq);
    RecordWork(fq, rq, steps);
    MoveOnWork(f, rq, if error == OK then f.Cur(rq) else DONE, error, now);
    KickWork(Advance(fq, rq, steps, error, now), now);
  }

  lemma KickWork(fq: Fq, now: int)
    ensures Work(KickFlush(fq, now)) == Work(fq)
  {
    var g := KickFlush(fq, now);
    LeftSame(fq, g, g.queue0);
    LeftSame(fq, g, g.queue1);
    LeftSame(fq, g, g.inFlight);
  }

  lemma {:induction false} EndAllWork(fq: Fq, r: Index, rest: seq<Id>, error: Status, now: int)
    requires WalkInv(fq, r, rest)
    ensures Work(EndAll(fq, rest, error, now)) + |rest| <= Work(fq)
    decreases |rest|
  {
    if rest != [] {
      var rq := rest[0];
      WalkHead(fq, r, rest);
      EndStepInv(fq, r, rest, error, now);
      EndStepIsCompleteSeq(fq, rq, error, now);
      CompleteSeqWork(fq, rq, {fq.Cur(rq)}, error, now);
      EndAllWork(EndStep(fq, rq, error, now), r, rest[1..], error, now);
    }
  }

  lemma FlushEndWork(fq: Fq, error: Status, now: int)
    requires Inv(fq) && fq.Refs() == 1
    ensures Work(FlushEndIo(fq, error, now)) < Work(fq)
    ensures FlushEndIo(fq, error, now).Refs() <= 1 && FlushEndIo(fq, error, now).bypass == fq.bypass
  {
    var f, l, err := FinishFlush(fq), fq.Running(), WalkStatus(fq, error);
    FinishFlushWalks(fq);
    SameListsWork(fq, f);
    EndAllWork(f, fq.runningIdx, l, err, now);
    EndAllBypass(f, l, err, now);
    EndAllInv(f, fq.runningIdx, l, err, now);
  }

  /** A reference that is not the last leaves the work and lowers the count. */
  lemma FlushEndIoRefs(fq: Fq, error: Status, now: int)
    requires fq.Refs() > 1
    ensures var g := FlushEndIo(fq, error, now);
      Work(g) == Work(fq) && g.bypass == fq.bypass && g.Refs() == fq.Refs() - 1 && g.flushRq != Idle
  {
    SameListsWork(fq, FlushEndIo(fq, error, now));
  }

  lemma FlushDoneDecreases(flags: Flags, w: World, error: Status, now: int)
    requires WorldInv(flags, w) && Enabled(flags, w, FlushDone(error, now))
    ensures Measure(Apply(flags, w, FlushDone(error, now))) < Measure(w)
  {
    if w.fq.Refs() == 1 { FlushEndWork(w.fq, error, now); } else { FlushEndIoRefs(w.fq, error, now); }
    FlightIs(w);
    FlightIs(Apply(flags, w, FlushDone(error, now)));
  }

  lemma FlightIs(w: World)
    ensures Flight(w) <= w.fq.Refs() + 2
    ensures w.sent.AtDevice? && w.fq.flushRq != Idle ==> Flight(w) == w.fq.Refs() + 1
    ensures w.sent.Answered? && w.fq.flushRq != Idle ==> Flight(w) == w.fq.Refs()
  {
  }

  lemma PutDecreases(flags: Flags, w: World, now: int)
    requires WorldInv(flags, w) && Enabled(flags, w, Put(now))
    ensures Measure(Apply(flags, w, Put(now))) < Measure(w)
  {
    if w.fq.Refs() == 1 { FlushEndWork(w.fq, OK, now); } else { FlushEndIoRefs(w.fq, OK, now); }
  }

  lemma CompleteSeqBypass(fq: Fq, rq: Id, steps: set<Step>, error: Status, now: int)
    ensures CompleteSeq(fq, rq, steps, error, now).bypass == fq.bypass
  {
  }

  lemma {:induction false} EndAllBypass(fq: Fq, l: seq<Id>, error: Status, now: int)
    ensures EndAll(fq, l, error, now).bypass == fq.bypass
    decreases |l|
  {
    if l != [] {
      EndAllBypass(EndStep(fq, l[0], error, now), l[1..], error, now);
    }
  }

  lemma {:induction false} RemoveLength(s: seq<Id>, x: Id)
    requires x in s
    ensures |Remove(s, x)| == |s| - 1
  {
    if s[0] != x { RemoveLength(s[1..], x); }
  }

  lemma DataDoneDecreases(flags: Flags, w: World, rq: Id, error: Status, now: int)
    requires WorldInv(flags, w) && Enabled(flags, w, DataDone(rq, error, now))
    ensures Measure(Apply(flags, w, DataDone(rq, error, now))) < Measure(w)
  {
    DataHead(w.fq, rq);
    CompleteSeqWork(w.fq, rq, {DATA}, error, now);
    CompleteSeqBypass(w.fq, rq, {DATA}, error, now);
    var v := Apply(flags, w, DataDone(rq, error, now));
    if w.fq.flushRq != Idle {
      CompleteSeqRunning(w.fq, rq, {DATA}, error, now);
    } else {
      IdleRefs(w.fq, rq, {DATA}, error, now);
    }
  }

  lemma BypassDoneDecreases(flags: Flags, w: World, rq: Id, error: Status)
    requires WorldInv(flags, w) && Enabled(flags, w, BypassDone(rq, error))
    ensures Measure(Apply(flags, w, BypassDone(rq, error))) < Measure(w)
  {
    var g := Apply(flags, w, BypassDone(rq, error)).fq;
    RemoveLength(w.fq.bypass, rq);
    LeftSame(w.fq, g, g.queue0);
    LeftSame(w.fq, g, g.queue1);
    LeftSame(w.fq, g, g.inFlight);
  }

  /** Every completion brings the sequencer closer to rest, even one that starts another flush. */
  lemma CompletionDecreases(flags: Flags, w: World, e: Event)
    requires WorldInv(flags, w) && Enabled(flags, w, e) && Completion(e)
    ensures Measure(Apply(flags, w, e)) < Measure(w)
  {
    match e
    case BypassDone(rq, error) => BypassDoneDecreases(flags, w, rq, error);
    case DataDone(rq, error, now) => DataDoneDecreases(flags, w, rq, error, now);
    case Dispatch =>
    case FlushDone(error, now) => FlushDoneDecreases(flags, w, error, now);
    case Put(now) => PutDecreases(flags, w, now);
  }

  lemma SameListsWork(fq: Fq, g: Fq)
    requires g.queue0 == fq.queue0 && g.queue1 == fq.queue1 && g.inFlight == fq.inFlight
    requires forall x :: fq.Waiting(x) ==> g.Done(x) == fq.Done(x)
    ensures Work(g) == Work(fq)
  {
    LeftSame(fq, g, g.queue0);
    LeftSame(fq, g, g.queue1);
    LeftSame(fq, g, g.inFlight);
  }

  lemma InsertSequencedWork(w: World, rq: Id, steps: set<Step>, now: int)
    requires Inv(w.fq) && Accounted(w) && rq !in w.info
    ensures var f := w.fq.(done := w.fq.done[rq := {}]);
      var g := CompleteSeq(f, rq, steps, OK, now);
      Work(g) <= Work(w.fq) + 3 && g.bypass == w.fq.bypass
      && (if w.fq.flushRq == Idle then g.Refs() <= 1 else g.flushRq == w.fq.flushRq)
  {
    var f := w.fq.(done := w.fq.done[rq := {}]);
    FreshSound(w, f, rq);
    SameListsWork(w.fq, f);
    CompleteSeqWork(f, rq, steps, OK, now);
    CompleteSeqBypass(f, rq, steps, OK, now);
    if w.fq.flushRq != Idle { CompleteSeqRunning(f, rq, steps, OK, now); } else { IdleRefs(f, rq, steps, OK, now); }
  }

  /** A flush issued by a kick starts with one reference. */
  lemma IdleRefs(fq: Fq, rq: Id, steps: set<Step>, error: Status, now: int)
    requires fq.flushRq == Idle
    ensures CompleteSeq(fq, rq, steps, error, now).Refs() <= 1
  {
  }

  lemma GetIncreases(flags: Flags, w: World)
    requires WorldInv(flags, w) && Enabled(flags, w, Get)
    ensures Measure(Apply(flags, w, Get)) == Measure(w) + 1
  {
    SameListsWork(w.fq, GetRef(w.fq));
  }

  lemma InsertIncreases(flags: Flags, w: World, rq: Id, inf: Info, now: int)
    requires WorldInv(flags, w) && Enabled(flags, w, Insert(rq, inf, now))
    ensures Measure(Apply(flags, w, Insert(rq, inf, now))) <= Measure(w) + 15
  {
    var g := InsertFlush(w.fq, flags, rq, inf, now);
    if Policy(flags, inf) == {} || Policy(flags, inf) == {DATA} {
      SameListsWork(w.fq, g);
    } else {
      InsertSequencedWork(w, rq, ACTIONS - Policy(flags, inf), now);
    }
  }

  function Inserts(es: seq<Event>): nat {
    if es == [] then 0 else (if es[0].Insert? then 1 else 0) + Inserts(es[1..])
  }

  function Gets(es: seq<Event>): nat {
    if es == [] then 0 else (if es[0].Get? then 1 else 0) + Gets(es[1..])
  }

  function Completions(es: seq<Event>): nat {
    if es == [] then 0 else (if Completion(es[0]) then 1 else 0) + Completions(es[1..])
  }

  lemma {:induction false} RunMeasure(flags: Flags, w: World, es: seq<Event>, v: World)
    requires WorldInv(flags, w) && IsRun(flags, w, es, v)
    ensures Completions(es) + Measure(v) <= Measure(w) + 15 * Inserts(es) + Gets(es)
    decreases |es|
  {
    if es != [] {
      var e := es[0];
      EventInv(flags, w, e);
      RunMeasure(flags, Apply(flags, w, e), es[1..], v);
      if e.Insert? {
        InsertIncreases(flags, w, e.rq, e.inf, e.now);
      } else if Completion(e) {
        CompletionDecreases(flags, w, e);
      } else if e.Get? {
        GetIncreases(flags, w);
      }
    }
  }

  /** A run makes at most 15 completions for each insertion, and one for each reference that a tag
      iterator takes, however the device and the clock behave. */
  lemma RunsTerminate(flags: Flags, es: seq<Event>, v: World)
    requires IsRun(flags, Start(), es, v)
    ensures Completions(es) <= 15 * Inserts(es) + Gets(es)
  {
    StartInv(flags);
    RunMeasure(flags, Start(), es, v);
  }

  /** A run that can go no further has ended every inserted request, each exactly once. */
  lemma QuiescentRunsEndAll(flags: Flags, es: seq<Event>, v: World)
    requires IsRun(flags, Start(), es, v)
    requires forall e :: Completion(e) ==> !Enabled(flags, v, e)
    ensures Distinct(v.fq.ended) && forall rq :: rq in v.info <==> rq in v.fq.ended
  {
    StartInv(flags);
    RunInv(flags, Start(), es, v);
    if !Quiescent(v.fq) {
      var e := Progress(flags, v);
    }
  }
}
