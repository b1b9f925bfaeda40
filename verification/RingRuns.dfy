/**
 One completion queue, the submission queues attached to it and the tags they share
 (daredevil/drivers/nvme/host/pci.c:3057: queue depth less one tags per tag set, one tag set per
 completion queue). Submitters, the controller and the completion handler interleave freely; a
 handled tag may be reused before the head of the completion ring has moved past its entry.
 The main result, RunsAreSafe, needs no other flow control than the number of tags.
*/
module RingRuns {
  import opened Seqs
  import opened Rings

  /** Where a tag is: free, allocated, in an unfetched command of queue q, with the controller, or in
      a completion that has not been handled. */
  datatype Place = Free | Held | InSq(q: nat) | Executing | InCq

  /** A submission queue with the controller's head, the commands it stands for, and its history. */
  datatype Queue = Queue(sq: Sq, head: nat, pending: seq<Cmd>, rung: nat, submitted: seq<Cmd>, fetched: seq<Cmd>)

  datatype Sys = Sys(
    depth: nat,
    qs: seq<Queue>,
    cq: Cq, ctail: nat, cphase: bool,        // the completion ring, and the controller's side of it
    unread: seq<nat>,                        // what the completion ring stands for
    handling: bool,                          // the entry at the head has been handled, the head has not moved
    place: seq<Place>,                       // of every tag
    posted: seq<nat>, handled: seq<nat>      // histories
  )

  datatype Event =
    | Alloc(t: nat)
    | Abort(t: nat)                                        // the request fails before it is copied
    | Enqueue(q: nat, t: nat, body: nat, last: bool)       // the tail of nvme_queue_rq
    | Submit(q: nat, cmds: seq<Cmd>)                       // nvme_submit_cmds
    | Commit(q: nat)                                       // nvme_commit_rqs
    | Fetch(q: nat)
    | Complete(t: nat)
    | Handle                                               // nvme_handle_cqe
    | Advance                                              // nvme_update_cq_head
    | RingCqDoorbell                                       // nvme_ring_cq_doorbell

  function TagsOf(cmds: seq<Cmd>): (ids: seq<nat>)
    ensures |ids| == |cmds| && forall i :: 0 <= i < |cmds| ==> ids[i] == cmds[i].id
  {
    seq(|cmds|, i requires 0 <= i < |cmds| => cmds[i].id)
  }

  /** The queues are allocated: every ring has the common depth. */
  predicate Sized(s: Sys) {
    && (forall q :: 0 <= q < |s.qs| ==>
          |s.qs[q].sq.cmds| == s.qs[q].sq.depth == s.depth && s.qs[q].sq.tail < s.depth && s.qs[q].head < s.depth)
    && |s.cq.cqes| == s.depth && s.cq.head < s.depth && s.ctail < s.depth
  }

  predicate Enabled(s: Sys, e: Event)
    requires Sized(s)
  {
    match e
    case Alloc(t) => t < |s.place| && s.place[t] == Free
    case Abort(t) => t < |s.place| && s.place[t] == Held
    case Enqueue(q, t, _, _) => q < |s.qs| && t < |s.place| && s.place[t] == Held
    case Submit(q, cmds) =>
      && q < |s.qs|
      && (forall i :: 0 <= i < |cmds| ==> cmds[i].id < |s.place| && s.place[cmds[i].id] == Held)
      && (forall i, j :: 0 <= i < j < |cmds| ==> cmds[i].id != cmds[j].id)
    case Commit(q) => q < |s.qs|
    case Fetch(q) => q < |s.qs| && s.qs[q].head != s.qs[q].sq.doorbell && s.qs[q].sq.cmds[s.qs[q].head].id < |s.place|
    case Complete(t) => t < |s.place| && s.place[t] == Executing
    case Handle => !s.handling && CqePending(s.cq) && s.cq.cqes[s.cq.head].id < |s.place|
    case Advance => s.handling
    case RingCqDoorbell => true
  }

  function Tail<T>(l: seq<T>): seq<T> { if l == [] then [] else l[1..] }

  function PlaceAll(place: seq<Place>, cmds: seq<Cmd>, p: Place): (r: seq<Place>)
    ensures |r| == |place|
  {
    seq(|place|, t requires 0 <= t < |place| => if exists i :: 0 <= i < |cmds| && cmds[i].id == t then p else place[t])
  }

  /** What the copies and the doorbell of a submission do to a queue. */
  function Submitted(u: Queue, sq: Sq, cmds: seq<Cmd>): Queue {
    var pending := u.pending + cmds;
    u.(sq := sq, pending := pending, rung := if Clean(sq) then |pending| else u.rung, submitted := u.submitted + cmds)
  }

  function Apply(s: Sys, e: Event): Sys
    requires Sized(s) && Enabled(s, e)
  {
    match e
    case Alloc(t) => s.(place := s.place[t := Held])
    case Abort(t) => s.(place := s.place[t := Free])
    case Enqueue(q, t, body, last) =>
      var cmd := Cmd(t, body);
      s.(qs := s.qs[q := Submitted(s.qs[q], WriteSqDb(CopyCmd(s.qs[q].sq, cmd), last), [cmd])],
         place := s.place[t := InSq(q)])
    case Submit(q, cmds) =>
      s.(qs := s.qs[q := Submitted(s.qs[q], SubmitCmds(s.qs[q].sq, cmds), cmds)],
         place := PlaceAll(s.place, cmds, InSq(q)))
    case Commit(q) => s.(qs := s.qs[q := Submitted(s.qs[q], CommitRqs(s.qs[q].sq), [])])
    case Fetch(q) =>
      var u := s.qs[q];
      var cmd := u.sq.cmds[u.head];
      s.(qs := s.qs[q := u.(head := Bump(u.head, s.depth), pending := Tail(u.pending), fetched := u.fetched + [cmd],
                            rung := if u.rung > 0 then u.rung - 1 else 0)],
         place := s.place[cmd.id := Executing])
    case Complete(t) =>
      s.(cq := Post(s.cq, s.ctail, s.cphase, t), ctail := Bump(s.ctail, s.depth),
         cphase := if s.ctail + 1 == s.depth then !s.cphase else s.cphase,
         unread := s.unread + [t], posted := s.posted + [t], place := s.place[t := InCq])
    case Handle =>
      var t := s.cq.cqes[s.cq.head].id;
      s.(handled := s.handled + [t], handling := true, place := s.place[t := Free])
    case Advance => s.(cq := UpdateCqHead(s.cq), unread := Tail(s.unread), handling := false)
    case RingCqDoorbell => s.(cq := s.cq.(doorbell := s.cq.head))
  }

  // ----- The invariant -----

  ghost predicate QueueOk(s: Sys, q: nat, u: Queue) {
    && u.sq.depth == s.depth && SqOk(u.sq, u.head, u.pending, u.rung)
    && u.submitted == u.fetched + u.pending
    && (forall i, j :: 0 <= i < j < |u.pending| ==> u.pending[i].id != u.pending[j].id)
    && (forall i :: 0 <= i < |u.pending| ==> u.pending[i].id < |s.place| && s.place[u.pending[i].id] == InSq(q))
  }

  /** The completions not yet handled. */
  function Live(s: Sys): seq<nat> { if s.handling then Tail(s.unread) else s.unread }

  ghost predicate CompletionOk(s: Sys) {
    && s.cq.depth == s.depth && CqOk(s.cq, s.unread) && PostsAt(s.cq, |s.unread|, s.ctail, s.cphase)
    && (s.handling ==> s.unread != [])
    && s.posted == s.handled + Live(s)
    && Distinct(Live(s))
    && (forall i :: 0 <= i < |Live(s)| ==> Live(s)[i] < |s.place| && s.place[Live(s)[i]] == InCq)
  }

  ghost predicate Inv(s: Sys) {
    && s.depth >= 2 && |s.place| < s.depth      // queue_depth = q_depth - 1 tags
    && (forall q :: 0 <= q < |s.qs| ==> QueueOk(s, q, s.qs[q]))
    && CompletionOk(s)
  }

  /** The tags bound the submission ring: a held tag finds a free slot. */
  lemma RoomForHeld(s: Sys, q: nat, u: Queue, cmds: seq<Cmd>)
    requires s.depth >= 2 && |s.place| < s.depth && QueueOk(s, q, u)
    requires forall i :: 0 <= i < |cmds| ==> cmds[i].id < |s.place| && s.place[cmds[i].id] == Held
    requires forall i, j :: 0 <= i < j < |cmds| ==> cmds[i].id != cmds[j].id
    ensures |u.pending| + |cmds| < s.depth
    ensures forall i, j :: 0 <= i < j < |u.pending + cmds| ==> (u.pending + cmds)[i].id != (u.pending + cmds)[j].id
  {
    var all := u.pending + cmds;
    forall i, j | 0 <= i < j < |all| ensures all[i].id != all[j].id {
      if i < |u.pending| <= j {
        assert s.place[all[i].id] == InSq(q) && s.place[all[j].id] == Held;
      }
    }
    Pigeonhole(TagsOf(all), |s.place|);
  }

  /** The tags bound the completion ring, although the entry being handled has given up its tag. */
  lemma RoomForCompletion(s: Sys, t: nat)
    requires s.depth >= 2 && |s.place| < s.depth && CompletionOk(s) && t < |s.place| && s.place[t] == Executing
    ensures |s.unread| < s.depth && t !in Live(s)
  {
    var live := Live(s);
    assert t !in live;
    DistinctAppend(live, t);
    Pigeonhole(live + [t], |s.place|);
  }

  // ----- Every event keeps the invariant -----

  lemma InvSized(s: Sys)
    requires Inv(s)
    ensures Sized(s)
  {
    forall q | 0 <= q < |s.qs|
      ensures |s.qs[q].sq.cmds| == s.qs[q].sq.depth == s.depth && s.qs[q].sq.tail < s.depth && s.qs[q].head < s.depth
    {
      assert QueueOk(s, q, s.qs[q]);
    }
  }

  /** Tags that move elsewhere do not disturb a queue. */
  lemma QueueFrame(s: Sys, v: Sys, q: nat, u: Queue)
    requires QueueOk(s, q, u) && v.depth == s.depth && |v.place| == |s.place|
    requires forall t :: 0 <= t < |s.place| && s.place[t] == InSq(q) ==> v.place[t] == InSq(q)
    ensures QueueOk(v, q, u)
  {
  }

  lemma CompletionFrame(s: Sys, v: Sys)
    requires CompletionOk(s) && v == s.(qs := v.qs, place := v.place) && |v.place| == |s.place|
    requires forall t :: 0 <= t < |s.place| && s.place[t] == InCq ==> v.place[t] == InCq
    ensures CompletionOk(v)
  {
    assert Live(v) == Live(s);
  }

  /** A submission of held tags, whatever the doorbell does. */
  lemma SubmittedOk(s: Sys, v: Sys, q: nat, u: Queue, sq: Sq, cmds: seq<Cmd>)
    requires s.depth >= 2 && |s.place| < s.depth && QueueOk(s, q, u)
    requires forall i :: 0 <= i < |cmds| ==> cmds[i].id < |s.place| && s.place[cmds[i].id] == Held
    requires forall i, j :: 0 <= i < j < |cmds| ==> cmds[i].id != cmds[j].id
    requires sq.depth == s.depth
    requires SqOk(sq, u.head, u.pending + cmds, |u.pending + cmds|) || SqOk(sq, u.head, u.pending + cmds, u.rung)
    requires v.depth == s.depth && |v.place| == |s.place|
    requires forall t :: 0 <= t < |s.place| && s.place[t] == InSq(q) ==> v.place[t] == InSq(q)
    requires forall i :: 0 <= i < |cmds| ==> v.place[cmds[i].id] == InSq(q)
    ensures QueueOk(v, q, Submitted(u, sq, cmds))
  {
    RoomForHeld(s, q, u, cmds);
    var n := Submitted(u, sq, cmds);
    if SqOk(sq, u.head, u.pending + cmds, |u.pending + cmds|) {
      CleanIsRung(sq, u.head, u.pending + cmds, |u.pending + cmds|);
    } else {
      CleanIsRung(sq, u.head, u.pending + cmds, u.rung);
    }
    assert u.submitted + cmds == u.fetched + (u.pending + cmds);
  }

  lemma EnqueueInv(s: Sys, q: nat, t: nat, body: nat, last: bool)
    requires Inv(s) && Sized(s) && Enabled(s, Enqueue(q, t, body, last))
    ensures Inv(Apply(s, Enqueue(q, t, body, last)))
  {
    var v := Apply(s, Enqueue(q, t, body, last));
    var u, cmd := s.qs[q], Cmd(t, body);
    assert QueueOk(s, q, u);
    RoomForHeld(s, q, u, [cmd]);
    CopyCmdOk(u.sq, u.head, u.pending, u.rung, cmd);
    WriteSqDbOk(CopyCmd(u.sq, cmd), u.head, u.pending + [cmd], u.rung, last);
    SubmittedOk(s, v, q, u, WriteSqDb(CopyCmd(u.sq, cmd), last), [cmd]);
    OthersOk(s, v, q);
    CompletionFrame(s, v);
  }

  lemma OthersOk(s: Sys, v: Sys, q: nat)
    requires Inv(s) && q < |s.qs| == |v.qs| && v.depth == s.depth && |v.place| == |s.place|
    requires forall t, p: nat :: 0 <= t < |s.place| && s.place[t] == InSq(p) && p != q ==> v.place[t] == InSq(p)
    requires forall p :: 0 <= p < |s.qs| && p != q ==> v.qs[p] == s.qs[p]
    ensures forall p :: 0 <= p < |v.qs| && p != q ==> QueueOk(v, p, v.qs[p])
  {
    forall p | 0 <= p < |v.qs| && p != q ensures QueueOk(v, p, v.qs[p]) {
      QueueFrame(s, v, p, s.qs[p]);
    }
  }

  lemma SubmitInv(s: Sys, q: nat, cmds: seq<Cmd>)
    requires Inv(s) && Sized(s) && Enabled(s, Submit(q, cmds))
    ensures Inv(Apply(s, Submit(q, cmds)))
  {
    var v := Apply(s, Submit(q, cmds));
    var u := s.qs[q];
    assert QueueOk(s, q, u);
    RoomForHeld(s, q, u, cmds);
    CopyAllOk(u.sq, u.head, u.pending, u.rung, cmds);
    WriteSqDbOk(CopyAll(u.sq, cmds), u.head, u.pending + cmds, u.rung, true);
    SubmittedOk(s, v, q, u, SubmitCmds(u.sq, cmds), cmds);
    OthersOk(s, v, q);
    CompletionFrame(s, v);
  }

  lemma CommitInv(s: Sys, q: nat)
    requires Inv(s) && Sized(s) && Enabled(s, Commit(q))
    ensures Inv(Apply(s, Commit(q)))
  {
    var v := Apply(s, Commit(q));
    var u := s.qs[q];
    assert QueueOk(s, q, u) && u.pending + [] == u.pending;
    CommitRqsOk(u.sq, u.head, u.pending, u.rung);
    SubmittedOk(s, v, q, u, CommitRqs(u.sq), []);
    OthersOk(s, v, q);
    CompletionFrame(s, v);
  }

  lemma FetchInv(s: Sys, q: nat)
    requires Inv(s) && Sized(s) && Enabled(s, Fetch(q))
    ensures Inv(Apply(s, Fetch(q)))
    ensures s.qs[q].pending != [] && s.qs[q].sq.cmds[s.qs[q].head] == s.qs[q].pending[0]
  {
    var v := Apply(s, Fetch(q));
    var u := s.qs[q];
    assert QueueOk(s, q, u);
    FetchOk(u.sq, u.head, u.pending, u.rung);
    var c := u.pending[0];
    assert v.place == s.place[c.id := Executing];
    assert u.fetched + [c] + u.pending[1..] == u.fetched + u.pending;
    assert v.qs[q].pending == u.pending[1..];
    assert QueueOk(v, q, v.qs[q]);
    OthersOk(s, v, q);
    CompletionFrame(s, v);
  }

  lemma CompleteInv(s: Sys, t: nat)
    requires Inv(s) && Sized(s) && Enabled(s, Complete(t))
    ensures Inv(Apply(s, Complete(t)))
  {
    var v := Apply(s, Complete(t));
    RoomForCompletion(s, t);
    PostOk(s.cq, s.unread, s.ctail, s.cphase, t);
    DistinctAppend(Live(s), t);
    assert Live(v) == Live(s) + [t];
    assert PostsAt(v.cq, |v.unread|, v.ctail, v.cphase);
    assert CompletionOk(v);
    forall q | 0 <= q < |v.qs| ensures QueueOk(v, q, v.qs[q]) {
      QueueFrame(s, v, q, s.qs[q]);
    }
  }

  lemma HandleInv(s: Sys)
    requires Inv(s) && Sized(s) && Enabled(s, Handle)
    ensures Inv(Apply(s, Handle))
    ensures Live(s) != [] && s.cq.cqes[s.cq.head].id == Live(s)[0]
  {
    var v := Apply(s, Handle);
    CqePendingIsUnread(s.cq, s.unread);
    var t := s.unread[0];
    assert Live(v) == Live(s)[1..] && s.handled + Live(s) == s.handled + [t] + Live(v);
    assert CompletionOk(v);
    forall q | 0 <= q < |v.qs| ensures QueueOk(v, q, v.qs[q]) {
      assert s.place[Live(s)[0]] == InCq;
      QueueFrame(s, v, q, s.qs[q]);
    }
  }

  lemma AdvanceInv(s: Sys)
    requires Inv(s) && Sized(s) && Enabled(s, Advance)
    ensures Inv(Apply(s, Advance))
  {
    var v := Apply(s, Advance);
    UpdateCqHeadOk(s.cq, s.unread);
    UpdateCqHeadPosts(s.cq, |s.unread|, s.ctail, s.cphase);
    assert Live(v) == Live(s);
    assert CompletionOk(v);
    forall q | 0 <= q < |v.qs| ensures QueueOk(v, q, v.qs[q]) {
      QueueFrame(s, v, q, s.qs[q]);
    }
  }

  lemma EventInv(s: Sys, e: Event)
    requires Inv(s) && Sized(s) && Enabled(s, e)
    ensures Inv(Apply(s, e))
  {
    match e
    case Enqueue(q, t, body, last) => EnqueueInv(s, q, t, body, last);
    case Submit(q, cmds) => SubmitInv(s, q, cmds);
    case Commit(q) => CommitInv(s, q);
    case Fetch(q) => FetchInv(s, q);
    case Complete(t) => CompleteInv(s, t);
    case Handle => HandleInv(s);
    case Advance => AdvanceInv(s);
    case Alloc(_) => OtherEventInv(s, e);
    case Abort(_) => OtherEventInv(s, e);
    case RingCqDoorbell => OtherEventInv(s, e);
  }

  lemma OtherEventInv(s: Sys, e: Event)
    requires Inv(s) && Sized(s) && Enabled(s, e) && (e.Alloc? || e.Abort? || e.RingCqDoorbell?)
    ensures Inv(Apply(s, e))
  {
    var v := Apply(s, e);
    forall q | 0 <= q < |v.qs| ensures QueueOk(v, q, v.qs[q]) {
      QueueFrame(s, v, q, s.qs[q]);
    }
    assert Live(v) == Live(s);
    assert CqOk(v.cq, v.unread);
    assert CompletionOk(v);
  }

  /** Freshly initialised queues (nvme_init_queue): empty rings, all phases zero, all tags free. */
  predicate Initial(s: Sys) {
    && s.depth >= 2 && |s.place| < s.depth && (forall t :: 0 <= t < |s.place| ==> s.place[t] == Free)
    && (forall q :: 0 <= q < |s.qs| ==>
          && s.qs[q] == Queue(Sq(s.depth, s.qs[q].sq.cmds, 0, 0, 0), 0, [], 0, [], [])
          && |s.qs[q].sq.cmds| == s.depth)
    && |s.cq.cqes| == s.depth && s.cq == Cq(s.depth, s.cq.cqes, 0, true, 0) && s.ctail == 0 && s.cphase
    && (forall i :: 0 <= i < s.depth ==> !s.cq.cqes[i].phase)
    && s.unread == [] && !s.handling && s.posted == [] && s.handled == []
  }

  lemma InitialInv(s: Sys)
    requires Initial(s)
    ensures Inv(s)
  {
    assert CqOk(s.cq, []);
    forall q | 0 <= q < |s.qs| ensures QueueOk(s, q, s.qs[q]) {
      assert SqOk(s.qs[q].sq, 0, [], 0);
    }
  }

  ghost predicate IsRun(s: Sys, es: seq<Event>, v: Sys)
    decreases |es|
  {
    if es == [] then s == v
    else Sized(s) && Enabled(s, es[0]) && IsRun(Apply(s, es[0]), es[1..], v)
  }

  lemma {:induction false} RunInv(s: Sys, es: seq<Event>, v: Sys)
    requires Inv(s) && IsRun(s, es, v)
    ensures Inv(v)
    decreases |es|
  {
    if es != [] {
      EventInv(s, es[0]);
      RunInv(Apply(s, es[0]), es[1..], v);
    }
  }

  /** In every state of every run, whatever the interleaving and the number of wraps: each
      submission ring holds exactly the commands submitted and not yet fetched, in order and intact,
      and has a free slot for every held tag; the slot the controller posts to next holds no
      unhandled completion; the phase test is true exactly if a completion waits; and completions are
      handled in the order in which they were posted, each once. */
  lemma RunsAreSafe(s0: Sys, es: seq<Event>, s: Sys)
    requires Initial(s0) && IsRun(s0, es, s)
    ensures Inv(s) && Sized(s)
    ensures forall q :: 0 <= q < |s.qs| ==>
      && s.qs[q].submitted == s.qs[q].fetched + s.qs[q].pending
      && (forall i :: 0 <= i < |s.qs[q].pending| ==>
            s.qs[q].sq.cmds[Slot(s.qs[q].head, i, s.depth)] == s.qs[q].pending[i])
    ensures forall q, t :: 0 <= q < |s.qs| && 0 <= t < |s.place| && s.place[t] == Held ==>
      |s.qs[q].pending| + 1 < s.depth
    ensures forall t :: 0 <= t < |s.place| && s.place[t] == Executing ==>
      forall i :: 0 <= i < |s.unread| ==> Slot(s.cq.head, i, s.depth) != s.ctail
    ensures !s.handling ==> (CqePending(s.cq) <==> s.posted != s.handled)
    ensures s.handled <= s.posted
  {
    InitialInv(s0);
    RunInv(s0, es, s);
    InvSized(s);
    CqePendingIsUnread(s.cq, s.unread);
    forall q | 0 <= q < |s.qs|
      ensures s.qs[q].submitted == s.qs[q].fetched + s.qs[q].pending
      ensures forall i :: 0 <= i < |s.qs[q].pending| ==>
        s.qs[q].sq.cmds[Slot(s.qs[q].head, i, s.depth)] == s.qs[q].pending[i]
      ensures forall t :: 0 <= t < |s.place| && s.place[t] == Held ==> |s.qs[q].pending| + 1 < s.depth
    {
      assert QueueOk(s, q, s.qs[q]);
      forall t | 0 <= t < |s.place| && s.place[t] == Held ensures |s.qs[q].pending| + 1 < s.depth {
        RoomForHeld(s, q, s.qs[q], [Cmd(t, 0)]);
      }
    }
    forall t | 0 <= t < |s.place| && s.place[t] == Executing
      ensures forall i :: 0 <= i < |s.unread| ==> Slot(s.cq.head, i, s.depth) != s.ctail
    {
      RoomForCompletion(s, t);
    }
  }
}
