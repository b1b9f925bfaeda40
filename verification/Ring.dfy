/**
 The submission and completion rings of an NVMe queue (daredevil/drivers/nvme/host/pci.c:555-590,
 1139-1151, 1267-1298), as values, together with what they stand for: a queue of commands the
 controller has not fetched yet, and a queue of completions the driver has not handled yet.
*/
module Rings {
  datatype Cmd = Cmd(id: nat, body: nat)

  /** A submission ring: sq_cmds, sq_tail, last_sq_tail and the doorbell the controller sees. */
  datatype Sq = Sq(depth: nat, cmds: seq<Cmd>, tail: nat, lastTail: nat, doorbell: nat)

  datatype Cqe = Cqe(id: nat, phase: bool)

  /** A completion ring: cqes, cq_head, cq_phase and the completion doorbell. */
  datatype Cq = Cq(depth: nat, cqes: seq<Cqe>, head: nat, phase: bool, doorbell: nat)

  function Bump(x: nat, depth: nat): nat { if x + 1 == depth then 0 else x + 1 }

  /** nvme_sq_copy_cmd. */
  function CopyCmd(sq: Sq, cmd: Cmd): Sq
    requires sq.tail < |sq.cmds|
  {
    sq.(cmds := sq.cmds[sq.tail := cmd], tail := Bump(sq.tail, sq.depth))
  }

  /** nvme_write_sq_db: rings when asked to, or when the next command would make the ring look empty. */
  function WriteSqDb(sq: Sq, writeSq: bool): Sq {
    if !writeSq && Bump(sq.tail, sq.depth) != sq.lastTail then sq
    else sq.(doorbell := sq.tail, lastTail := sq.tail)
  }

  /** nvme_commit_rqs. */
  function CommitRqs(sq: Sq): Sq {
    if sq.tail != sq.lastTail then WriteSqDb(sq, true) else sq
  }

  /** No command has been copied whose doorbell is still to be rung. */
  predicate Clean(sq: Sq) { sq.tail == sq.lastTail }

  /** Entry i of a ring counted from h. */
  function Slot(h: nat, i: nat, depth: nat): nat
    requires h < depth && i <= depth
  {
    if h + i < depth then h + i else h + i - depth
  }

  /** The ring holds the commands `pending`, oldest first, which the controller has not fetched;
      it has been told of the first `rung` of them. One slot always stays empty. */
  ghost predicate SqOk(sq: Sq, head: nat, pending: seq<Cmd>, rung: nat) {
    && sq.depth >= 2 && |sq.cmds| == sq.depth && head < sq.depth
    && rung <= |pending| < sq.depth
    && sq.tail == Slot(head, |pending|, sq.depth)
    && sq.lastTail == sq.doorbell == Slot(head, rung, sq.depth)
    && forall i :: 0 <= i < |pending| ==> sq.cmds[Slot(head, i, sq.depth)] == pending[i]
  }

  /** Copying a command keeps every unfetched one, as long as a slot is free besides the empty one. */
  lemma CopyCmdOk(sq: Sq, head: nat, pending: seq<Cmd>, rung: nat, cmd: Cmd)
    requires SqOk(sq, head, pending, rung) && |pending| + 1 < sq.depth
    ensures SqOk(CopyCmd(sq, cmd), head, pending + [cmd], rung)
  {
  }

  /** The ring is clean exactly if the controller has been told of everything. */
  lemma CleanIsRung(sq: Sq, head: nat, pending: seq<Cmd>, rung: nat)
    requires SqOk(sq, head, pending, rung)
    ensures Clean(sq) <==> rung == |pending|
  {
  }

  /** The doorbell is rung if asked for, or if the ring is full; then everything has been told. */
  lemma WriteSqDbOk(sq: Sq, head: nat, pending: seq<Cmd>, rung: nat, writeSq: bool)
    requires SqOk(sq, head, pending, rung)
    ensures var full := |pending| - rung == sq.depth - 1;
      && (writeSq || full ==> SqOk(WriteSqDb(sq, writeSq), head, pending, |pending|))
      && (!writeSq && !full ==> WriteSqDb(sq, writeSq) == sq)
  {
  }

  lemma CommitRqsOk(sq: Sq, head: nat, pending: seq<Cmd>, rung: nat)
    requires SqOk(sq, head, pending, rung)
    ensures SqOk(CommitRqs(sq), head, pending, |pending|) && Clean(CommitRqs(sq))
  {
  }

  /** What the controller fetches is the oldest command it has not fetched, exactly as it was copied. */
  lemma FetchOk(sq: Sq, head: nat, pending: seq<Cmd>, rung: nat)
    requires SqOk(sq, head, pending, rung)
    ensures head != sq.doorbell <==> rung > 0
    ensures rung > 0 ==> sq.cmds[head] == pending[0] && SqOk(sq, Bump(head, sq.depth), pending[1..], rung - 1)
  {
  }

  /** The copies of nvme_submit_cmds, before its one doorbell. */
  function CopyAll(sq: Sq, cmds: seq<Cmd>): Sq
    requires |sq.cmds| == sq.depth && sq.tail < sq.depth
    decreases |cmds|
  {
    if cmds == [] then sq else CopyAll(CopyCmd(sq, cmds[0]), cmds[1..])
  }

  /** nvme_submit_cmds. */
  function SubmitCmds(sq: Sq, cmds: seq<Cmd>): Sq
    requires |sq.cmds| == sq.depth && sq.tail < sq.depth
  {
    WriteSqDb(CopyAll(sq, cmds), true)
  }

  lemma {:induction false} CopyAllOk(sq: Sq, head: nat, pending: seq<Cmd>, rung: nat, cmds: seq<Cmd>)
    requires SqOk(sq, head, pending, rung) && |pending| + |cmds| < sq.depth
    ensures SqOk(CopyAll(sq, cmds), head, pending + cmds, rung) && CopyAll(sq, cmds).depth == sq.depth
    decreases |cmds|
  {
    if cmds == [] {
      assert pending + cmds == pending;
    } else {
      CopyCmdOk(sq, head, pending, rung, cmds[0]);
      CopyAllOk(CopyCmd(sq, cmds[0]), head, pending + [cmds[0]], rung, cmds[1..]);
      assert pending + [cmds[0]] + cmds[1..] == pending + cmds;
    }
  }

  // ----- The completion ring -----

  /** nvme_cqe_pending. */
  predicate CqePending(cq: Cq)
    requires cq.head < |cq.cqes|
  {
    cq.cqes[cq.head].phase == cq.phase
  }

  /** nvme_update_cq_head. */
  function UpdateCqHead(cq: Cq): Cq {
    if cq.head + 1 == cq.depth then cq.(head := 0, phase := !cq.phase) else cq.(head := cq.head + 1)
  }

  /** The phase with which the controller writes entry i counted from the driver's head. */
  function PhaseAt(cq: Cq, i: nat): bool { if cq.head + i < cq.depth then cq.phase else !cq.phase }

  /** The controller's tail and phase (section 4.6 of NVM Express 1.4), n entries after the head. */
  predicate PostsAt(cq: Cq, n: nat, tail: nat, phase: bool) {
    cq.head < cq.depth && n <= cq.depth && tail == Slot(cq.head, n, cq.depth) && phase == PhaseAt(cq, n)
  }

  /** Posting writes the entry and moves the controller's tail. */
  function Post(cq: Cq, tail: nat, phase: bool, id: nat): Cq
    requires tail < |cq.cqes|
  {
    cq.(cqes := cq.cqes[tail := Cqe(id, phase)])
  }

  /** The entries from the head on are `unread`, and every other slot shows the opposite phase. */
  ghost predicate CqOk(cq: Cq, unread: seq<nat>) {
    && cq.depth >= 2 && |cq.cqes| == cq.depth && cq.head < cq.depth && |unread| <= cq.depth
    && forall i :: 0 <= i < cq.depth ==>
         && (i < |unread| ==> cq.cqes[Slot(cq.head, i, cq.depth)] == Cqe(unread[i], PhaseAt(cq, i)))
         && (i >= |unread| ==> cq.cqes[Slot(cq.head, i, cq.depth)].phase == !PhaseAt(cq, i))
  }

  /** The phase test tells exactly whether a completion waits, over any number of wraps. */
  lemma CqePendingIsUnread(cq: Cq, unread: seq<nat>)
    requires CqOk(cq, unread)
    ensures CqePending(cq) <==> unread != []
    ensures unread != [] ==> cq.cqes[cq.head].id == unread[0]
  {
    assert Slot(cq.head, 0, cq.depth) == cq.head;
  }

  /** A free slot takes the next completion without touching an unread one. */
  lemma PostOk(cq: Cq, unread: seq<nat>, tail: nat, phase: bool, id: nat)
    requires CqOk(cq, unread) && PostsAt(cq, |unread|, tail, phase) && |unread| < cq.depth
    ensures CqOk(Post(cq, tail, phase, id), unread + [id])
    ensures PostsAt(cq, |unread| + 1, Bump(tail, cq.depth), if tail + 1 == cq.depth then !phase else phase)
  {
  }

  /** Moving the head past a handled completion leaves the others. */
  lemma UpdateCqHeadOk(cq: Cq, unread: seq<nat>)
    requires CqOk(cq, unread) && unread != []
    ensures CqOk(UpdateCqHead(cq), unread[1..])
  {
    var u := UpdateCqHead(cq);
    forall i | 0 <= i < cq.depth
      ensures Slot(u.head, i, cq.depth) == Slot(cq.head, if i + 1 == cq.depth then 0 else i + 1, cq.depth)
    {
    }
    assert cq.cqes[Slot(cq.head, 0, cq.depth)] == Cqe(unread[0], cq.phase);
  }

  lemma UpdateCqHeadPosts(cq: Cq, n: nat, tail: nat, phase: bool)
    requires PostsAt(cq, n, tail, phase) && n > 0
    ensures PostsAt(UpdateCqHead(cq), n - 1, tail, phase)
  {
  }
}
