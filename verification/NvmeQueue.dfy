/**
 struct nvme_queue as the driver updates it in place: the rings are arrays, the indices are
 fields. Every method is proved to perform the transition of module Rings it names; the poll
 loop is proved to handle exactly the waiting completions, in the order they were posted.
*/
module NvmeQueues {
  import opened Rings

  lemma MoveFirst(handled: seq<nat>, left: seq<nat>)
    requires left != []
    ensures handled + [left[0]] + left[1..] == handled + left
  {
  }

  class NvmeQueue {
    const qDepth: nat
    const sqCmds: array<Cmd>
    const cqes: array<Cqe>
    var sqTail: nat
    var lastSqTail: nat
    var sqDoorbell: nat
    var cqHead: nat
    var cqPhase: bool
    var cqDoorbell: nat

    ghost predicate Valid()
      reads this
    {
      && qDepth >= 2 && sqCmds.Length == qDepth && cqes.Length == qDepth
      && sqTail < qDepth && lastSqTail < qDepth && cqHead < qDepth
    }

    function SqState(): Sq
      reads this, sqCmds
    {
      Sq(qDepth, sqCmds[..], sqTail, lastSqTail, sqDoorbell)
    }

    function CqState(): Cq
      reads this, cqes
    {
      Cq(qDepth, cqes[..], cqHead, cqPhase, cqDoorbell)
    }

    /** nvme_alloc_queue and nvme_init_queue: no command, no completion, all phases zero. */
    constructor (depth: nat)
      requires depth >= 2
      ensures Valid() && qDepth == depth && fresh(sqCmds) && fresh(cqes)
      ensures SqOk(SqState(), 0, [], 0) && CqOk(CqState(), []) && PostsAt(CqState(), 0, 0, true)
    {
      qDepth := depth;
      sqCmds := new Cmd[depth](_ => Cmd(0, 0));
      cqes := new Cqe[depth](_ => Cqe(0, false));
      sqTail, lastSqTail, sqDoorbell := 0, 0, 0;
      cqHead, cqPhase, cqDoorbell := 0, true, 0;
    }

    /** nvme_sq_copy_cmd. */
    method SqCopyCmd(cmd: Cmd)
      requires Valid()
      modifies this`sqTail, sqCmds
      ensures Valid() && SqState() == CopyCmd(old(SqState()), cmd)
    {
      sqCmds[sqTail] := cmd;
      sqTail := sqTail + 1;
      if sqTail == qDepth {
        sqTail := 0;
      }
    }

    /** nvme_write_sq_db. */
    method WriteSqDb(writeSq: bool)
      requires Valid()
      modifies this`lastSqTail, this`sqDoorbell
      ensures Valid() && SqState() == Rings.WriteSqDb(old(SqState()), writeSq)
    {
      if !writeSq {
        var nextTail := sqTail + 1;
        if nextTail == qDepth {
          nextTail := 0;
        }
        if nextTail != lastSqTail {
          return;
        }
      }
      sqDoorbell := sqTail;
      lastSqTail := sqTail;
    }

    /** nvme_commit_rqs. */
    method CommitRqs()
      requires Valid()
      modifies this`lastSqTail, this`sqDoorbell
      ensures Valid() && SqState() == Rings.CommitRqs(old(SqState()))
    {
      if sqTail != lastSqTail {
        WriteSqDb(true);
      }
    }

    /** The locked part of nvme_queue_rq. */
    method Enqueue(cmd: Cmd, last: bool)
      requires Valid()
      modifies this`sqTail, this`lastSqTail, this`sqDoorbell, sqCmds
      ensures Valid() && SqState() == Rings.WriteSqDb(CopyCmd(old(SqState()), cmd), last)
    {
      SqCopyCmd(cmd);
      WriteSqDb(last);
    }

    /** nvme_submit_cmds. */
    method SubmitCmds(cmds: seq<Cmd>)
      requires Valid()
      modifies this`sqTail, this`lastSqTail, this`sqDoorbell, sqCmds
      ensures Valid() && SqState() == Rings.SubmitCmds(old(SqState()), cmds)
    {
      var rqlist := cmds;
      while rqlist != []
        invariant Valid()
        invariant CopyAll(SqState(), rqlist) == CopyAll(old(SqState()), cmds)
        invariant lastSqTail == old(lastSqTail) && sqDoorbell == old(sqDoorbell)
      {
        var req := rqlist[0];
        rqlist := rqlist[1..];
        SqCopyCmd(req);
      }
      WriteSqDb(true);
    }

    /** nvme_cqe_pending. */
    method CqePending() returns (pending: bool)
      requires Valid()
      ensures pending == Rings.CqePending(CqState())
    {
      pending := cqes[cqHead].phase == cqPhase;
    }

    /** nvme_update_cq_head. */
    method UpdateCqHead()
      requires Valid()
      modifies this`cqHead, this`cqPhase
      ensures Valid() && CqState() == Rings.UpdateCqHead(old(CqState()))
    {
      var tmp := cqHead + 1;
      if tmp == qDepth {
        cqHead := 0;
        cqPhase := !cqPhase;
      } else {
        cqHead := tmp;
      }
    }

    /** The body of the loop of nvme_poll_cq: handles the completion at the head. */
    method HandleCqe(ghost left: seq<nat>) returns (id: nat, pending: bool)
      requires Valid() && CqOk(CqState(), left) && left != []
      modifies this`cqHead, this`cqPhase
      ensures Valid() && CqOk(CqState(), left[1..]) && id == left[0]
      ensures pending <==> left[1..] != []
    {
      CqePendingIsUnread(CqState(), left);
      UpdateCqHeadOk(CqState(), left);
      id := cqes[cqHead].id;
      UpdateCqHead();
      CqePendingIsUnread(CqState(), left[1..]);
      pending := CqePending();
    }

    /** nvme_poll_cq: handles exactly the completions that wait, oldest first, and then rings the
        completion doorbell once if there were any. */
    method PollCq(ghost unread: seq<nat>) returns (found: nat, handled: seq<nat>)
      requires Valid() && CqOk(CqState(), unread)
      modifies this`cqHead, this`cqPhase, this`cqDoorbell
      ensures Valid() && CqOk(CqState(), []) && handled == unread && found == |unread|
      ensures cqDoorbell == if unread == [] then old(cqDoorbell) else cqHead
    {
      found, handled := 0, [];
      ghost var left := unread;
      var pending := CqePending();
      CqePendingIsUnread(CqState(), left);
      while pending
        invariant Valid() && CqOk(CqState(), left) && handled + left == unread && found == |handled|
        invariant pending <==> left != []
        invariant cqDoorbell == old(cqDoorbell)
        decreases |left|
      {
        var id;
        id, pending := HandleCqe(left);
        MoveFirst(handled, left);
        found := found + 1;
        handled := handled + [id];
        left := left[1..];
      }
      if found > 0 {
        cqDoorbell := cqHead;
      }
    }
  }
}
