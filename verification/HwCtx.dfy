/**
 blk_mq_dispatch_rq_list as it runs: the request lists are popped and spliced in place and the
 driver's ring is updated through struct nvme_queue. Proved to compute what module Dispatch says.
*/
module HwCtxs {
  import opened Dispatch
  import opened Rings
  import opened NvmeQueues

  class HwCtx {
    const nvmeq: NvmeQueue
    var dispatch: seq<Id>          // hctx->dispatch
    var accepted: seq<Id>          // requests the driver has taken
    var ended: seq<Id>             // requests ended with an error
    var endStatus: map<Id, Status> // and their status

    constructor (q: NvmeQueue)
      ensures nvmeq == q && dispatch == [] && accepted == [] && ended == [] && endStatus == map[]
    {
      nvmeq, dispatch, accepted, ended, endStatus := q, [], [], [], map[];
    }

    /** nvme_queue_rq: only a request that was prepared goes on the ring. */
    method QueueRq(rq: Id, e: Env, last: bool) returns (sts: Status)
      requires nvmeq.Valid()
      modifies nvmeq`sqTail, nvmeq`lastSqTail, nvmeq`sqDoorbell, nvmeq.sqCmds
      ensures nvmeq.Valid() && sts == e.answer.Sts()
      ensures nvmeq.SqState() == Dispatch.QueueRq(old(nvmeq.SqState()), rq, e, last)
    {
      sts := e.answer.Sts();
      if e.answer == Queued {
        nvmeq.Enqueue(Cmd(rq, e.body), last);
      }
    }

    /** One pass of the loop body; `s` is the state it computes on. */
    method TryFirst(ghost s: State, list: seq<Id>, zoneList: seq<Id>, e: Env, nrBudgets: nat)
      returns (list': seq<Id>, zoneList': seq<Id>, budgets': nat, prep: Prep, ret: Status,
               stop: bool, ok: bool, failed: bool)
      requires nvmeq.Valid() && list != [] && s.list == list && s.zoneList == zoneList && s.budgets == nrBudgets
      requires s.sq == nvmeq.SqState()
      modifies this`ended, this`endStatus, nvmeq`sqTail, nvmeq`lastSqTail, nvmeq`sqDoorbell, nvmeq.sqCmds
      ensures nvmeq.Valid()
      ensures var t := Try(s, e);
        && t.list == list' && t.zoneList == zoneList' && t.budgets == budgets' && t.prep == prep
        && t.stopped == (stop || s.stopped)
        && t.sq == nvmeq.SqState() && (prep == PrepOk ==> t.ret == ret) && (prep != PrepOk ==> t.ret == s.ret)
        && t.queued == (if ok then s.queued + [list[0]] else s.queued)
        && t.ended == (if failed then s.ended + [list[0]] else s.ended)
        && t.needsResource == (s.needsResource || (prep == PrepOk && (ret == StsResource || ret == StsZoneResource)))
        && t.endStatus == (if failed then s.endStatus[list[0] := ret] else s.endStatus)
      ensures ended == if failed then old(ended) + [list[0]] else old(ended)
      ensures endStatus == if failed then old(endStatus)[list[0] := ret] else old(endStatus)
    {
      list', zoneList', budgets', ret, stop, ok, failed := list, zoneList, nrBudgets, StsOk, false, false, false;
      var rq := list[0];
      prep := PrepDispatch(e, nrBudgets == 0);
      if prep != PrepOk {
        stop := true;
        return;
      }
      list' := list[1..];
      var last := true;
      if list' != [] {
        last := !e.nextTag;
      }
      if nrBudgets > 0 {
        budgets' := nrBudgets - 1;
      }
      ret := QueueRq(rq, e, last);
      match ret {
        case StsOk => ok := true;
        case StsResource | StsDevResource =>
          list', stop := [rq] + list', true;
          assert list' == list;
        case StsZoneResource =>
          zoneList' := [rq] + zoneList;
        case StsError(_) =>
          failed := true;
          ended := ended + [rq];
          endStatus := endStatus[rq := ret];
      }
    }

    /** The loop of blk_mq_dispatch_rq_list. */
    method TryAll(list0: seq<Id>, nrBudgets: nat, env: seq<Env>)
      returns (ghost s: State, list: seq<Id>, zoneList: seq<Id>, queued: nat, errors: nat, needsResource: bool,
               ret: Status)
      requires nvmeq.Valid() && |env| >= |list0|
      modifies this`accepted, this`ended, this`endStatus, nvmeq`sqTail, nvmeq`lastSqTail, nvmeq`sqDoorbell, nvmeq.sqCmds
      ensures nvmeq.Valid() && s == Loop(Start(list0, nrBudgets, old(nvmeq.SqState())), env)
      ensures s.list == list && s.zoneList == zoneList && |s.queued| == queued && |s.ended| == errors
      ensures s.needsResource == needsResource && s.ret == ret && s.sq == nvmeq.SqState()
      ensures accepted == old(accepted) + s.queued && ended == old(ended) + s.ended
      ensures endStatus == old(endStatus) + s.endStatus
    {
      var budgets, rest, stop := nrBudgets, env, false;
      list, zoneList, queued, errors, needsResource, ret := list0, [], 0, 0, false, StsOk;
      s := Start(list0, nrBudgets, nvmeq.SqState());
      while !stop && list != []
        invariant nvmeq.Valid() && (stop || |rest| >= |list|)
        invariant s.list == list && s.zoneList == zoneList && s.budgets == budgets && s.ret == ret && s.stopped == stop
        invariant s.needsResource == needsResource && |s.queued| == queued && |s.ended| == errors
        invariant s.sq == nvmeq.SqState()
        invariant accepted == old(accepted) + s.queued && ended == old(ended) + s.ended
        invariant endStatus == old(endStatus) + s.endStatus
        invariant (if stop then s else Loop(s, rest)) == Loop(Start(list0, nrBudgets, old(nvmeq.SqState())), env)
        decreases !stop, |list|
      {
        ghost var t := Try(s, rest[0]);
        var prep, ret', ok, failed;
        var rq := list[0];
        list, zoneList, budgets, prep, ret', stop, ok, failed := TryFirst(s, list, zoneList, rest[0], budgets);
        if prep == PrepOk {
          ret := ret';
          needsResource := needsResource || ret' == StsResource || ret' == StsZoneResource;
        }
        if ok {
          queued := queued + 1;
          accepted := accepted + [rq];
        }
        if failed {
          errors := errors + 1;
        }
        rest := rest[1..];
        s := t;
      }
    }

    /** blk_mq_dispatch_rq_list. */
    method DispatchRqList(list0: seq<Id>, nrBudgets: nat, env: seq<Env>) returns (progress: bool)
      requires nvmeq.Valid() && |env| >= |list0|
      modifies this, nvmeq`sqTail, nvmeq`lastSqTail, nvmeq`sqDoorbell, nvmeq.sqCmds
      ensures nvmeq.Valid()
      ensures var r := Loop(Start(list0, nrBudgets, old(nvmeq.SqState())), env);
        && nvmeq.SqState() == FinalRing(r)
        && dispatch == old(dispatch) + Back(r)
        && accepted == old(accepted) + r.queued
        && ended == old(ended) + r.ended && endStatus == old(endStatus) + r.endStatus
        && (progress <==> Back(r) == [] && (r.queued != [] || r.ended != []))
    {
      if list0 == [] {
        return false;
      }
      ghost var s;
      var list, zoneList, queued, errors, needsResource, ret;
      s, list, zoneList, queued, errors, needsResource, ret := TryAll(list0, nrBudgets, env);
      list := list + zoneList;
      if (list != [] || errors > 0 || needsResource || ret == StsDevResource) && queued > 0 {
        nvmeq.CommitRqs();
      }
      dispatch := dispatch + list;
      progress := list == [] && queued + errors != 0;
    }
  }
}
