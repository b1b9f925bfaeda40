/**
 struct blk_flush_queue as the object the kernel updates in place, under its mq_flush_lock.
 The intrusive lists are sequences of request ids. Every method performs the transition of
 module Flush named in its ensures clause; flush_end_io does so although its walk runs over a
 list that a nested kick may turn into the pending queue.
*/
module FlushQueues {
  import opened Seqs
  import F = Flush

  type Id = F.Id

  class FlushQueue {
    var flushQueue0: seq<Id>
    var flushQueue1: seq<Id>
    var flushDataInFlight: seq<Id>
    var flushPendingIdx: F.Index
    var flushRunningIdx: F.Index
    var flushPendingSince: int
    var rqStatus: F.Status
    var flushRq: F.FlushRq
    var seqDone: map<Id, set<F.Step>>
    var bypass: seq<Id>
    var ended: seq<Id>
    var result: map<Id, F.Status>
    var bug: bool

    function State(): F.Fq
      reads this
    {
      F.Fq(flushQueue0, flushQueue1, flushDataInFlight, flushPendingIdx, flushRunningIdx, flushPendingSince,
           rqStatus, flushRq, seqDone, bypass, ended, result, bug)
    }

    /** blk_alloc_flush_queue. */
    constructor ()
      ensures State() == F.EMPTY && F.Inv(State())
    {
      flushQueue0, flushQueue1, flushDataInFlight := [], [], [];
      flushPendingIdx, flushRunningIdx, flushPendingSince := 0, 0, 0;
      rqStatus, flushRq, seqDone := F.OK, F.Idle, map[];
      bypass, ended, result, bug := [], [], map[], false;
    }

    method ListDel(rq: Id)
      modifies this
      ensures State() == F.Unlink(old(State()), rq)
    {
      flushQueue0 := Remove(flushQueue0, rq);
      flushQueue1 := Remove(flushQueue1, rq);
      flushDataInFlight := Remove(flushDataInFlight, rq);
    }

    /** blk_kick_flush. */
    method KickFlush(now: int)
      modifies this
      ensures State() == F.KickFlush(old(State()), now)
    {
      var pending := if flushPendingIdx == 0 then flushQueue0 else flushQueue1;
      if flushPendingIdx != flushRunningIdx || pending == [] {
        return;
      }
      if flushDataInFlight != [] && F.TimeBefore(now, flushPendingSince + F.FLUSH_PENDING_TIMEOUT) {
        return;
      }
      flushPendingIdx := 1 - flushPendingIdx;
      flushRq := F.Issued(pending[0], 1);
    }

    /** list_move_tail to the pending queue. */
    method MoveToPending(rq: Id)
      modifies this
      ensures State() == F.MoveToPending(old(State()), rq)
    {
      ListDel(rq);
      if flushPendingIdx == 0 {
        flushQueue0 := flushQueue0 + [rq];
      } else {
        flushQueue1 := flushQueue1 + [rq];
      }
    }

    /** blk_flush_complete_seq. */
    method CompleteSeq(rq: Id, steps: set<F.Step>, error: F.Status, now: int)
      modifies this
      ensures State() == F.CompleteSeq(old(State()), rq, steps, error, now)
    {
      var seq0 := if rq in seqDone then seqDone[rq] else {};
      if seq0 * steps != {} {
        bug := true;
      }
      seqDone := seqDone[rq := seq0 + steps];
      assert State() == F.Record(old(State()), rq, steps);
      MoveOn(rq, if error == F.OK then F.CurSeq(seq0 + steps) else F.DONE, error, now);
      KickFlush(now);
    }

    /** The switch of blk_flush_complete_seq. */
    method MoveOn(rq: Id, step: F.Step, error: F.Status, now: int)
      modifies this
      ensures State() == F.MoveOn(old(State()), rq, step, error, now)
    {
      match step {
        case PREFLUSH | POSTFLUSH =>
          if (if flushPendingIdx == 0 then flushQueue0 else flushQueue1) == [] {
            flushPendingSince := now;
          }
          MoveToPending(rq);
        case DATA =>
          ListDel(rq);
          flushDataInFlight := flushDataInFlight + [rq];
        case DONE =>
          ListDel(rq);
          EndRequest(rq, error);
      }
    }

    /** blk_mq_end_request. */
    method EndRequest(rq: Id, error: F.Status)
      modifies this
      ensures State() == F.EndRequest(old(State()), rq, error)
    {
      ended := ended + [rq];
      result := result[rq := error];
    }

    /** mq_flush_data_end_io. */
    method DataEndIo(rq: Id, error: F.Status, now: int)
      modifies this
      ensures State() == F.DataEndIo(old(State()), rq, error, now)
    {
      CompleteSeq(rq, {F.DATA}, error, now);
    }

    /** flush_end_io. The walk reads the successor of the visited request before the request
        moves; it visits exactly the requests that were running on entry, once each, in order. */
    method FlushEndIo(error: F.Status, now: int)
      requires F.Inv(State()) && flushRq != F.Idle
      modifies this
      ensures State() == F.FlushEndIo(old(State()), error, now)
      ensures F.Inv(State())
    {
      ghost var fq := State();
      F.FlushEndIoInv(fq, error, now);
      flushRq := F.Issued(flushRq.owner, flushRq.refs - 1);   // req_ref_put_and_test
      if flushRq.refs != 0 {
        rqStatus := error;
        return;
      }
      var err := error;
      if rqStatus != F.OK {
        err := rqStatus;
        rqStatus := F.OK;
      }
      flushRq := F.Idle;
      var r := flushRunningIdx;
      bug := bug || flushPendingIdx == flushRunningIdx;   // BUG_ON
      flushRunningIdx := 1 - flushRunningIdx;

      assert State() == F.FinishFlush(fq);
      F.FinishFlushWalks(fq);
      WalkRunning(r, err, now);
    }

    /** req_ref_inc_not_zero, by a tag iterator that finds the flush request. */
    method GetRef()
      requires F.Inv(State()) && flushRq != F.Idle
      modifies this
      ensures State() == F.GetRef(old(State())) && F.Inv(State())
    {
      F.GetRefInv(State());
      flushRq := flushRq.(refs := flushRq.refs + 1);
    }

    /** list_for_each_entry_safe over the list r that was running. */
    method WalkRunning(r: F.Index, err: F.Status, now: int)
      requires F.WalkInv(State(), r, State().Queue(r))
      modifies this
      ensures State() == F.EndAll(old(State()), old(State()).Queue(r), err, now)
    {
      ghost var rest := State().Queue(r);
      var rq := F.First(if r == 0 then flushQueue0 else flushQueue1);
      while rq != F.Head
        invariant F.WalkInv(State(), r, rest) && rq == F.First(rest)
        invariant F.EndAll(State(), rest, err, now) == F.EndAll(old(State()), old(State()).Queue(r), err, now)
        decreases |rest|
      {
        var n := F.Next(if r == 0 then flushQueue0 else flushQueue1, rq.rq);
        F.EndStepInv(State(), r, rest, err, now);
        EndStep(rq.rq, err, now);
        rest := rest[1..];
        rq := n;
      }
    }

    /** The body of the walk. */
    method EndStep(rq: Id, error: F.Status, now: int)
      modifies this
      ensures State() == F.EndStep(old(State()), rq, error, now)
    {
      var step := F.CurSeq(if rq in seqDone then seqDone[rq] else {});
      if step != F.PREFLUSH && step != F.POSTFLUSH {
        bug := true;
      }
      CompleteSeq(rq, {step}, error, now);
    }

    /** blk_insert_flush. */
    method InsertFlush(flags: F.Flags, rq: Id, info: F.Info, now: int)
      modifies this
      ensures State() == F.InsertFlush(old(State()), flags, rq, info, now)
    {
      var policy := F.Policy(flags, info);
      if policy == {} {
        EndRequest(rq, F.OK);
        return;
      }
      if F.DATA in policy && F.PREFLUSH !in policy && F.POSTFLUSH !in policy {
        assert policy == {F.DATA};
        bypass := bypass + [rq];
        return;
      }
      seqDone := seqDone[rq := {}];
      CompleteSeq(rq, F.ACTIONS - policy, F.OK, now);
    }
  }
}
