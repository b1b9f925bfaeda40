/**
 blk_mq_dispatch_rq_list (daredevil/block/blk-mq.c:2112-2280) over the queue_rq operation of the
 NVMe driver (daredevil/drivers/nvme/host/pci.c:1004-1041). What the block layer can allocate and
 what the driver answers is given by an environment, one entry for each request tried.
*/
module Dispatch {
  import opened Seqs
  import opened Rings

  type Id = nat

  datatype Status = StsOk | StsResource | StsDevResource | StsZoneResource | StsError(code: nat)

  /** How nvme_queue_rq deals with a request. A controller that is not ready makes it return what
      nvme_fail_nonready_command returns, which may be any status, also StsOk. */
  datatype Answer =
    | Disabled
    | NotReady(sts: Status)
    | PrepFailed(err: Status)
    | Queued
  {
    function Sts(): Status {
      match this
      case Disabled => StsError(10)          // BLK_STS_IOERR
      case NotReady(s) => s
      case PrepFailed(s) => if s == StsOk then StsError(10) else s
      case Queued => StsOk
    }
  }

  datatype Env = Env(noBudget: bool, noTag: bool, nextTag: bool, answer: Answer, body: nat)

  datatype Prep = PrepOk | PrepNoTag | PrepNoBudget

  /** blk_mq_prep_dispatch_rq. */
  function PrepDispatch(e: Env, needBudget: bool): Prep {
    if needBudget && e.noBudget then PrepNoBudget else if e.noTag then PrepNoTag else PrepOk
  }

  /** The locals of blk_mq_dispatch_rq_list and the ring of the hardware queue. */
  datatype State = State(
    list: seq<Id>, zoneList: seq<Id>,
    queued: seq<Id>, ended: seq<Id>, endStatus: map<Id, Status>,
    needsResource: bool, ret: Status, prep: Prep, budgets: nat, stopped: bool,
    sq: Sq)

  /** nvme_queue_rq as far as the ring is concerned. */
  function QueueRq(sq: Sq, rq: Id, e: Env, last: bool): Sq
    requires sq.tail < |sq.cmds|
  {
    if e.answer == Queued then WriteSqDb(CopyCmd(sq, Cmd(rq, e.body)), last) else sq
  }

  predicate RingSized(sq: Sq) { sq.depth >= 2 && |sq.cmds| == sq.depth && sq.tail < sq.depth && sq.lastTail < sq.depth }

  /** One iteration of the loop. */
  function Try(s: State, e: Env): (r: State)
    requires s.list != [] && RingSized(s.sq)
    ensures RingSized(r.sq)
    ensures r.stopped || |r.list| == |s.list| - 1
  {
    var prep := PrepDispatch(e, s.budgets == 0);
    if prep != PrepOk then s.(prep := prep, stopped := true)
    else
      var rq, rest := s.list[0], s.list[1..];
      var last := rest == [] || !e.nextTag;
      var sts := e.answer.Sts();
      var t := s.(prep := prep, ret := sts, budgets := if s.budgets > 0 then s.budgets - 1 else 0,
                  sq := QueueRq(s.sq, rq, e, last));
      match sts
      case StsOk => t.(list := rest, queued := s.queued + [rq])
      case StsResource => t.(needsResource := true, stopped := true)
      case StsDevResource => t.(stopped := true)
      case StsZoneResource => t.(list := rest, zoneList := [rq] + s.zoneList, needsResource := true)
      case StsError(_) => t.(list := rest, ended := s.ended + [rq], endStatus := s.endStatus[rq := sts])
  }

  /** The loop: until a request has to wait or the list is empty. */
  function Loop(s: State, env: seq<Env>): (r: State)
    requires |env| >= |s.list| && RingSized(s.sq)
    ensures RingSized(r.sq)
    decreases |s.list|
  {
    if s.list == [] then s
    else
      var t := Try(s, env[0]);
      if t.stopped then t else Loop(t, env[1..])
  }

  function Start(list: seq<Id>, budgets: nat, sq: Sq): State {
    State(list, [], [], [], map[], false, StsOk, PrepOk, budgets, false, sq)
  }

  /** What goes back to hctx->dispatch. */
  function Back(s: State): seq<Id> { s.list + s.zoneList }

  predicate CommitNeeded(s: State) {
    (Back(s) != [] || s.ended != [] || s.needsResource || s.ret == StsDevResource) && s.queued != []
  }

  function FinalRing(s: State): Sq { if CommitNeeded(s) then CommitRqs(s.sq) else s.sq }

  // ----- Nothing is lost -----

  datatype Kind = Accepted | Failed | Zoned | Blocked

  function KindOf(e: Env): Kind {
    match e.answer.Sts()
    case StsOk => Accepted
    case StsError(_) => Failed
    case StsZoneResource => Zoned
    case _ => Blocked
  }

  /** The requests of a list whose answers are of a given kind, in list order. */
  function Pick(list: seq<Id>, env: seq<Env>, kind: Kind): seq<Id>
    requires |env| >= |list|
  {
    if list == [] then []
    else if KindOf(env[0]) == kind then [list[0]] + Pick(list[1..], env[1..], kind)
    else Pick(list[1..], env[1..], kind)
  }

  /** From s the loop tries the first k requests and sorts them by their answers, each kind in list
      order, those that wait for a zone in the opposite order; the rest of the list is untouched. */
  predicate Sorts(s: State, env: seq<Env>, r: State, k: nat)
    requires |env| >= |s.list|
  {
    && k <= |s.list| && r.list == s.list[k..]
    && r.queued == s.queued + Pick(s.list[..k], env, Accepted)
    && r.ended == s.ended + Pick(s.list[..k], env, Failed)
    && r.zoneList == Reverse(Pick(s.list[..k], env, Zoned)) + s.zoneList
    && Pick(s.list[..k], env, Blocked) == []
  }

  /** The request, if its answer is of this kind. */
  function OfKind(x: Id, e: Env, kind: Kind): seq<Id> { if KindOf(e) == kind then [x] else [] }

  lemma PickCons(list: seq<Id>, env: seq<Env>, kind: Kind, k: nat)
    requires k < |list| <= |env|
    ensures Pick(list[..k + 1], env, kind) == OfKind(list[0], env[0], kind) + Pick(list[1..][..k], env[1..], kind)
  {
    assert list[..k + 1][0] == list[0] && list[..k + 1][1..] == list[1..][..k];
  }

  lemma Assoc(a: seq<Id>, b: seq<Id>, c: seq<Id>)
    ensures a + b + c == a + (b + c)
  {
  }

  lemma ZoneOrder(x: seq<Id>, z: seq<Id>, zoneList: seq<Id>)
    requires |x| <= 1
    ensures Reverse(x + z) + zoneList == Reverse(z) + (x + zoneList)
  {
    if x == [] {
      assert x + z == z && x + zoneList == zoneList;
    } else {
      ReverseCons(x[0], z);
      assert x == [x[0]];
    }
  }

  lemma TrySorts(s: State, env: seq<Env>, r: State, k: nat)
    requires s.list != [] && |env| >= |s.list| && RingSized(s.sq)
    requires var t := Try(s, env[0]); !t.stopped && Sorts(t, env[1..], r, k)
    ensures Sorts(s, env, r, k + 1)
  {
    TryKinds(s, env[0]);
    SortsCons(s, Try(s, env[0]), env, r, k);
  }

  lemma SortsCons(s: State, t: State, env: seq<Env>, r: State, k: nat)
    requires s.list != [] && |env| >= |s.list| && t.list == s.list[1..] && Sorts(t, env[1..], r, k)
    requires var x, e := s.list[0], env[0];
      && t.queued == s.queued + OfKind(x, e, Accepted) && t.ended == s.ended + OfKind(x, e, Failed)
      && t.zoneList == OfKind(x, e, Zoned) + s.zoneList && KindOf(e) != Blocked
    ensures Sorts(s, env, r, k + 1)
  {
    var x, e, l, es := s.list[0], env[0], s.list[1..][..k], env[1..];
    assert s.list[k + 1..] == s.list[1..][k..];
    PickCons(s.list, env, Accepted, k);
    Assoc(s.queued, OfKind(x, e, Accepted), Pick(l, es, Accepted));
    PickCons(s.list, env, Failed, k);
    Assoc(s.ended, OfKind(x, e, Failed), Pick(l, es, Failed));
    PickCons(s.list, env, Zoned, k);
    ZoneOrder(OfKind(x, e, Zoned), Pick(l, es, Zoned), s.zoneList);
    PickCons(s.list, env, Blocked, k);
  }

  /** Where one iteration that does not stop puts the request it tries. */
  lemma TryKinds(s: State, e: Env)
    requires s.list != [] && RingSized(s.sq) && !Try(s, e).stopped
    ensures var t, x := Try(s, e), s.list[0];
      && t.list == s.list[1..] && KindOf(e) != Blocked
      && t.queued == s.queued + OfKind(x, e, Accepted) && t.ended == s.ended + OfKind(x, e, Failed)
      && t.zoneList == OfKind(x, e, Zoned) + s.zoneList
  {
  }

  /** From s the loop rightly stops after k requests: at the end of the list, at one that cannot be
      prepared, or at one that the driver refuses for lack of resources; and at none before it. */
  predicate Halts(s: State, env: seq<Env>, k: nat)
    requires |env| >= |s.list|
  {
    && k <= |s.list|
    && (k == |s.list| || PrepDispatch(env[k], s.budgets <= k) != PrepOk || KindOf(env[k]) == Blocked)
    && (forall i :: 0 <= i < k ==> PrepDispatch(env[i], s.budgets <= i) == PrepOk && KindOf(env[i]) != Blocked)
  }

  lemma HaltsCons(s: State, t: State, env: seq<Env>, k: nat)
    requires s.list != [] && |env| >= |s.list| && t.list == s.list[1..] && Halts(t, env[1..], k)
    requires t.budgets == if s.budgets > 0 then s.budgets - 1 else 0
    requires PrepDispatch(env[0], s.budgets == 0) == PrepOk && KindOf(env[0]) != Blocked
    ensures Halts(s, env, k + 1)
  {
    forall i | 0 <= i < k + 1 ensures PrepDispatch(env[i], s.budgets <= i) == PrepOk && KindOf(env[i]) != Blocked {
      if i > 0 { assert env[i] == env[1..][i - 1]; }
    }
    if k + 1 < |s.list| { assert env[k + 1] == env[1..][k]; }
  }

  lemma {:induction false} LoopSorts(s: State, env: seq<Env>) returns (k: nat)
    requires |env| >= |s.list| && RingSized(s.sq) && !s.stopped
    ensures Sorts(s, env, Loop(s, env), k) && Halts(s, env, k)
    decreases |s.list|
  {
    k := 0;
    if s.list != [] {
      var t := Try(s, env[0]);
      if !t.stopped {
        var k1 := LoopSorts(t, env[1..]);
        TrySorts(s, env, Loop(s, env), k1);
        HaltsCons(s, t, env, k1);
        k := k1 + 1;
      }
    }
  }

  /** The status with which the loop ends a request that fails: the last one it got an answer with. */
  lemma {:induction false} LoopStatus(s: State, env: seq<Env>, rq: Id)
    requires |env| >= |s.list| && RingSized(s.sq) && !s.stopped && rq !in s.list
    ensures var r := Loop(s, env);
      (rq in r.endStatus <==> rq in s.endStatus) && (rq in s.endStatus ==> r.endStatus[rq] == s.endStatus[rq])
    decreases |s.list|
  {
    if s.list != [] {
      var t := Try(s, env[0]);
      if !t.stopped { LoopStatus(t, env[1..], rq); }
    }
  }

  /** Each request that the loop tries and that fails ends with the status that the driver gave for it;
      no other request gets a status. */
  lemma {:induction false} FailedGetTheirStatus(s: State, env: seq<Env>, k: nat, i: nat)
    requires |env| >= |s.list| && RingSized(s.sq) && !s.stopped && Distinct(s.list) && Halts(s, env, k)
    requires i < |s.list| && s.list[i] !in s.endStatus
    ensures var r, rq := Loop(s, env), s.list[i];
      && (rq in r.endStatus <==> i < k && KindOf(env[i]) == Failed)
      && (rq in r.endStatus ==> r.endStatus[rq] == env[i].answer.Sts())
    decreases |s.list|
  {
    var t := Try(s, env[0]);
    if t.stopped {
      assert k == 0;
    } else if i == 0 {
      assert s.list[0] !in s.list[1..];
      LoopStatus(t, env[1..], s.list[0]);
    } else {
      assert s.list[i] == s.list[1..][i - 1] && s.list[i] != s.list[0];
      HaltsTail(s, env, k);
      FailedGetTheirStatus(t, env[1..], k - 1, i - 1);
    }
  }

  lemma HaltsTail(s: State, env: seq<Env>, k: nat)
    requires s.list != [] && |env| >= |s.list| && RingSized(s.sq) && Halts(s, env, k)
    requires !Try(s, env[0]).stopped
    ensures k > 0 && Halts(Try(s, env[0]), env[1..], k - 1)
  {
    var t := Try(s, env[0]);
    forall i | 0 <= i < k - 1
      ensures PrepDispatch(env[1..][i], t.budgets <= i) == PrepOk && KindOf(env[1..][i]) != Blocked
    {
      assert env[1..][i] == env[i + 1];
    }
  }

  lemma {:induction false} PickPartition(list: seq<Id>, env: seq<Env>)
    requires |env| >= |list|
    ensures multiset(list) ==
      multiset(Pick(list, env, Accepted)) + multiset(Pick(list, env, Failed)) +
      multiset(Pick(list, env, Zoned)) + multiset(Pick(list, env, Blocked))
    decreases |list|
  {
    if list != [] {
      PickPartition(list[1..], env[1..]);
      assert list == [list[0]] + list[1..];
    }
  }

  /** Every request of the list is accepted by the driver, ended with an error, or goes back to
      hctx->dispatch: exactly one of the three. Those not tried to an end go back in list order, before
      those that wait for a zone. */
  lemma NothingIsLost(list: seq<Id>, budgets: nat, sq: Sq, env: seq<Env>) returns (k: nat)
    requires |env| >= |list| && RingSized(sq)
    ensures var s, r := Start(list, budgets, sq), Loop(Start(list, budgets, sq), env);
      && multiset(list) == multiset(r.queued) + multiset(r.ended) + multiset(Back(r))
      && Sorts(s, env, r, k) && Halts(s, env, k)
      && Back(r) == list[k..] + Reverse(Pick(list[..k], env, Zoned))
  {
    var s := Start(list, budgets, sq);
    k := LoopSorts(s, env);
    SortsPartition(s, env, Loop(s, env), k);
    assert Reverse(Pick(list[..k], env, Zoned)) + [] == Reverse(Pick(list[..k], env, Zoned));
  }

  lemma SortsPartition(s: State, env: seq<Env>, r: State, k: nat)
    requires |env| >= |s.list| && Sorts(s, env, r, k) && s.queued == [] && s.ended == [] && s.zoneList == []
    ensures multiset(s.list) == multiset(r.queued) + multiset(r.ended) + multiset(Back(r))
  {
    var tried := s.list[..k];
    var zoned := Pick(tried, env, Zoned);
    PickPartition(tried, env);
    ReverseKeeps(zoned);
    assert s.list == tried + s.list[k..];
    assert r.zoneList == Reverse(zoned) && Back(r) == s.list[k..] + Reverse(zoned);
    assert r.queued == Pick(tried, env, Accepted) && r.ended == Pick(tried, env, Failed);
  }

  // ----- Doorbells -----

  /** How many commands were copied since the doorbell was rung. */
  function Unrung(sq: Sq): int {
    if sq.tail >= sq.lastTail then sq.tail - sq.lastTail else sq.tail + sq.depth - sq.lastTail
  }

  /** The rest of the list drains with every request accepted, and a copied command is left without
      a doorbell, given whether one is waiting for it now. */
  predicate DrainsDirty(n: nat, env: seq<Env>, budgets: nat, dirty: bool)
    requires |env| >= n
    decreases n
  {
    if n == 0 then dirty
    else
      && PrepDispatch(env[0], budgets == 0) == PrepOk
      && env[0].answer.Sts() == StsOk
      && DrainsDirty(n - 1, env[1..], if budgets > 0 then budgets - 1 else 0,
                     if env[0].answer == Queued then n > 1 && env[0].nextTag else dirty)
  }

  lemma TryDirty(s: State, e: Env)
    requires s.list != [] && RingSized(s.sq) && Unrung(s.sq) + |s.list| <= s.sq.depth - 1
    ensures var t := Try(s, e);
      && Unrung(t.sq) + |t.list| <= t.sq.depth - 1
      && (PrepDispatch(e, s.budgets == 0) == PrepOk && e.answer == Queued ==>
            (Clean(t.sq) <==> |s.list| == 1 || !e.nextTag))
      && (PrepDispatch(e, s.budgets == 0) != PrepOk || e.answer != Queued ==> t.sq == s.sq)
  {
  }

  /** A call that has met an error or a lack of resources commits whatever it has copied. */
  predicate Troubled(s: State) {
    s.ended != [] || s.needsResource || (s.stopped && (s.list != [] || s.ret == StsDevResource))
  }

  lemma {:induction false} TroubleCommits(s: State, env: seq<Env>)
    requires |env| >= |s.list| && RingSized(s.sq) && Troubled(s)
    requires s.queued == [] ==> Clean(s.sq)
    ensures s.stopped ==> Clean(FinalRing(s))
    ensures !s.stopped ==> Clean(FinalRing(Loop(s, env)))
    decreases |s.list|, !s.stopped
  {
    if !s.stopped && s.list != [] {
      var t := Try(s, env[0]);
      TroubleCommits(t, if t.stopped then env else env[1..]);
    }
  }

  lemma {:induction false} LoopDoorbell(s: State, env: seq<Env>)
    requires |env| >= |s.list| && RingSized(s.sq) && Unrung(s.sq) + |s.list| <= s.sq.depth - 1
    requires s.ended == [] && !s.needsResource && s.ret == StsOk && s.zoneList == [] && !s.stopped
    requires s.queued == [] ==> Clean(s.sq)
    ensures Clean(FinalRing(Loop(s, env))) <==> !DrainsDirty(|s.list|, env, s.budgets, !Clean(s.sq))
    decreases |s.list|
  {
    if s.list != [] {
      var t := Try(s, env[0]);
      TryDirty(s, env[0]);
      if t.stopped || env[0].answer.Sts() != StsOk {
        TroubleCommits(t, if t.stopped then env else env[1..]);
      } else {
        LoopDoorbell(t, env[1..]);
      }
    }
  }

  /** The one way to leave a command without a doorbell: every request is accepted, the last ones
      without being put on the ring, and the last command that was put there had been announced as
      not the last. */
  ghost predicate Stranded(n: nat, env: seq<Env>, budgets: nat)
    requires |env| >= n
  {
    && (forall i :: 0 <= i < n ==> PrepDispatch(env[i], budgets <= i) == PrepOk && env[i].answer.Sts() == StsOk)
    && exists j :: 0 <= j < n - 1 && env[j].answer == Queued && env[j].nextTag &&
         forall i :: j < i < n ==> env[i].answer == NotReady(StsOk)
  }

  /** The last command put on the ring by requests of the list, or else before, had been announced as not
      the last. */
  ghost predicate LeftDirty(n: nat, env: seq<Env>, dirty: bool)
    requires |env| >= n
  {
    || (dirty && forall i :: 0 <= i < n ==> env[i].answer != Queued)
    || exists j :: 0 <= j < n - 1 && env[j].answer == Queued && env[j].nextTag &&
         forall i :: j < i < n ==> env[i].answer != Queued
  }

  lemma LeftDirtyStep(n: nat, env: seq<Env>, rest: seq<Env>, dirty: bool)
    requires 0 < n <= |env| && rest == env[1..]
    ensures LeftDirty(n, env, dirty) <==>
      LeftDirty(n - 1, rest, if env[0].answer == Queued then n > 1 && env[0].nextTag else dirty)
  {
    assert forall i :: 0 < i < n ==> env[i] == rest[i - 1];
    assert forall i :: 0 <= i < n - 1 ==> rest[i] == env[i + 1];
  }

  lemma {:induction false} DrainsDirtyMeans(n: nat, env: seq<Env>, budgets: nat, dirty: bool)
    requires |env| >= n
    ensures DrainsDirty(n, env, budgets, dirty) <==>
      && (forall i :: 0 <= i < n ==> PrepDispatch(env[i], budgets <= i) == PrepOk && env[i].answer.Sts() == StsOk)
      && LeftDirty(n, env, dirty)
    decreases n
  {
    if n > 0 {
      var rest, b := env[1..], if budgets > 0 then budgets - 1 else 0;
      DrainsDirtyMeans(n - 1, rest, b, if env[0].answer == Queued then n > 1 && env[0].nextTag else dirty);
      LeftDirtyStep(n, env, rest, dirty);
      assert forall i :: 0 <= i < n - 1 ==> rest[i] == env[i + 1] && (b <= i <==> budgets <= i + 1);
      assert forall i :: 0 < i < n ==> env[i] == rest[i - 1];
    }
  }

  lemma AcceptedUnqueued(e: Env)
    requires e.answer.Sts() == StsOk && e.answer != Queued
    ensures e.answer == NotReady(StsOk)
  {
  }

  /** A ring that was clean on entry is clean on return, exactly unless the call is stranded. No more
      requests than tags can be on the list: without a scheduler each of them holds one. */
  lemma DoorbellsAreRung(list: seq<Id>, budgets: nat, sq: Sq, env: seq<Env>)
    requires |env| >= |list| && RingSized(sq) && Clean(sq) && |list| <= sq.depth - 1
    ensures Clean(FinalRing(Loop(Start(list, budgets, sq), env))) <==> !Stranded(|list|, env, budgets)
  {
    var n := |list|;
    LoopDoorbell(Start(list, budgets, sq), env);
    DirtyIsStranded(n, env, budgets);
  }

  lemma DirtyIsStranded(n: nat, env: seq<Env>, budgets: nat)
    requires |env| >= n
    ensures DrainsDirty(n, env, budgets, false) <==> Stranded(n, env, budgets)
  {
    DrainsDirtyMeans(n, env, budgets, false);
    if DrainsDirty(n, env, budgets, false) {
      var j :| 0 <= j < n - 1 && env[j].answer == Queued && env[j].nextTag &&
        forall i :: j < i < n ==> env[i].answer != Queued;
      forall i | j < i < n ensures env[i].answer == NotReady(StsOk) {
        AcceptedUnqueued(env[i]);
      }
    }
  }

  /** The command of request 0 waits without a doorbell when the controller stops being ready before
      request 1 is tried, and the driver completes request 1 itself and reports success. */
  lemma CommandLeftWithoutDoorbell()
    ensures var sq := Sq(4, [Cmd(0, 0), Cmd(0, 0), Cmd(0, 0), Cmd(0, 0)], 0, 0, 0);
      var env := [Env(false, false, true, Queued, 0), Env(false, false, true, NotReady(StsOk), 0)];
      Clean(sq) && !Clean(FinalRing(Loop(Start([0, 1], 0, sq), env)))
  {
    var sq := Sq(4, [Cmd(0, 0), Cmd(0, 0), Cmd(0, 0), Cmd(0, 0)], 0, 0, 0);
    var env := [Env(false, false, true, Queued, 0), Env(false, false, true, NotReady(StsOk), 0)];
    assert env[0].answer == Queued && env[1].answer == NotReady(StsOk);
    assert Stranded(2, env, 0);
    DoorbellsAreRung([0, 1], 0, sq, env);
  }
}
