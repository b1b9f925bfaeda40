/**
 blk_mq_dispatch_rq_list on a submission queue that other CPUs use at the same time
 (daredevil/block/blk-mq.c:2112-2224, daredevil/drivers/nvme/host/pci.c:555-589, 1004-1041). What
 one call does to the ring is a sequence of events of RingRuns; those of other submitters, of the
 controller and of the completion handler come before, between and after them in any number.
*/
module DispatchRuns {
  import opened Rings
  import R = RingRuns
  import D = Dispatch

  // ----- What a call does to the ring -----

  /** The command that one round of the loop copies, if any. */
  function Copies(q: nat, s: D.State, e: D.Env): seq<R.Event>
    requires s.list != []
  {
    if D.PrepDispatch(e, s.budgets == 0) == D.PrepOk && e.answer == D.Queued
    then [R.Enqueue(q, s.list[0], e.body, |s.list| == 1 || !e.nextTag)]
    else []
  }

  /** The rest of a call on queue q: the copies of its loop, and the final commit. The ring inside s
      decides nothing. A request is identified with its tag. */
  function Acts(q: nat, s: D.State, env: seq<D.Env>): seq<R.Event>
    requires |env| >= |s.list| && D.RingSized(s.sq)
    decreases |s.list|
  {
    if s.list == [] then Final(q, s)
    else
      var t := D.Try(s, env[0]);
      Copies(q, s, env[0]) + if t.stopped then Final(q, t) else Acts(q, t, env[1..])
  }

  function Final(q: nat, s: D.State): seq<R.Event> { if D.CommitNeeded(s) then [R.Commit(q)] else [] }

  /** The event leaves every command told to the controller. */
  predicate Tells(e: R.Event) { e.Commit? || (e.Enqueue? && e.last) }

  /** A call that ends with these events leaves a copy untold, given whether one is untold before them. */
  predicate EndsUntold(acts: seq<R.Event>, untold: bool) {
    if acts == [] then untold else !Tells(acts[|acts| - 1])
  }

  predicate OnQueue(q: nat, acts: seq<R.Event>) {
    forall i :: 0 <= i < |acts| ==> (acts[i].Enqueue? || acts[i].Commit?) && acts[i].q == q
  }

  lemma {:induction false} ActsOnQueue(q: nat, s: D.State, env: seq<D.Env>)
    requires |env| >= |s.list| && D.RingSized(s.sq)
    ensures OnQueue(q, Acts(q, s, env))
    decreases |s.list|
  {
    if s.list != [] {
      var t := D.Try(s, env[0]);
      if !t.stopped { ActsOnQueue(q, t, env[1..]); }
    }
  }

  lemma EndsAppend(a: seq<R.Event>, b: seq<R.Event>, untold: bool)
    ensures EndsUntold(a + b, untold) == EndsUntold(b, EndsUntold(a, untold))
  {
  }

  /** A call in trouble commits if it has had anything accepted. */
  lemma {:induction false} TroubleTells(q: nat, s: D.State, env: seq<D.Env>, untold: bool)
    requires |env| >= |s.list| && D.RingSized(s.sq) && D.Troubled(s) && (s.queued == [] ==> !untold)
    ensures s.stopped ==> !EndsUntold(Final(q, s), untold)
    ensures !s.stopped ==> !EndsUntold(Acts(q, s, env), untold)
    decreases |s.list|, !s.stopped
  {
    if !s.stopped && s.list != [] {
      var t := D.Try(s, env[0]);
      var now := EndsUntold(Copies(q, s, env[0]), untold);
      TroubleTells(q, t, if t.stopped then env else env[1..], now);
      EndsAppend(Copies(q, s, env[0]), if t.stopped then Final(q, t) else Acts(q, t, env[1..]), untold);
    }
  }

  lemma {:induction false} ActsTell(q: nat, s: D.State, env: seq<D.Env>, untold: bool)
    requires |env| >= |s.list| && D.RingSized(s.sq) && (s.queued == [] ==> !untold)
    requires s.ended == [] && !s.needsResource && s.ret == D.StsOk && s.zoneList == [] && !s.stopped
    ensures EndsUntold(Acts(q, s, env), untold) <==> D.DrainsDirty(|s.list|, env, s.budgets, untold)
    decreases |s.list|
  {
    if s.list != [] {
      var t := D.Try(s, env[0]);
      var now := EndsUntold(Copies(q, s, env[0]), untold);
      if t.stopped || env[0].answer.Sts() != D.StsOk {
        TroubleTells(q, t, if t.stopped then env else env[1..], now);
      } else {
        ActsTell(q, t, env[1..], now);
      }
      EndsAppend(Copies(q, s, env[0]), if t.stopped then Final(q, t) else Acts(q, t, env[1..]), untold);
    }
  }

  // ----- In any company -----

  /** The commands of a queue that the controller has been told of, counted from the first one ever. */
  function Told(u: R.Queue): nat { |u.fetched| + u.rung }

  /** own[i] comes after others[0], ..., others[i]; others[|own|] comes last. */
  function Weave(own: seq<R.Event>, others: seq<seq<R.Event>>): seq<R.Event>
    requires |others| == |own| + 1
  {
    if own == [] then others[0] else others[0] + ([own[0]] + Weave(own[1..], others[1..]))
  }

  /** The state after events, as far as they are possible. */
  ghost function After(s: R.Sys, es: seq<R.Event>): R.Sys
    decreases |es|
  {
    if es == [] then s
    else if R.Sized(s) && R.Enabled(s, es[0]) then After(R.Apply(s, es[0]), es[1..])
    else s
  }

  /** The command copied next after u is among those that the controller has been told of in w. */
  predicate CommandTold(u: R.Queue, w: R.Queue, c: Cmd) {
    var k := |u.submitted|;
    k < Told(w) <= |w.submitted| && w.submitted[k] == c
  }

  /** In state v, each command that the call copied since state s lies among those told. */
  ghost predicate OwnTold(s: R.Sys, own: seq<R.Event>, others: seq<seq<R.Event>>, q: nat, v: R.Sys)
    requires |others| == |own| + 1
    decreases |own|
  {
    own == [] ||
    var a := After(s, others[0]);
    && q < |a.qs| && q < |v.qs| && R.Sized(a) && R.Enabled(a, own[0])
    && (own[0].Enqueue? ==> CommandTold(a.qs[q], v.qs[q], Cmd(own[0].t, own[0].body)))
    && OwnTold(R.Apply(a, own[0]), own[1..], others[1..], q, v)
  }

  lemma EventGrows(s: R.Sys, e: R.Event, q: nat)
    requires R.Inv(s) && R.Sized(s) && R.Enabled(s, e) && q < |s.qs|
    ensures var v := R.Apply(s, e);
      && R.Inv(v) && R.Sized(v) && |v.qs| == |s.qs|
      && s.qs[q].submitted <= v.qs[q].submitted && Told(s.qs[q]) <= Told(v.qs[q]) <= |v.qs[q].submitted|
  {
    R.EventInv(s, e);
    R.InvSized(R.Apply(s, e));
    assert R.QueueOk(s, q, s.qs[q]);
    assert R.QueueOk(R.Apply(s, e), q, R.Apply(s, e).qs[q]);
  }

  lemma {:induction false} RunGrows(s: R.Sys, x: seq<R.Event>, y: seq<R.Event>, v: R.Sys, q: nat)
    requires R.Inv(s) && R.IsRun(s, x + y, v) && q < |s.qs|
    ensures var a := After(s, x);
      && R.Inv(a) && R.Sized(a) && R.IsRun(a, y, v) && |a.qs| == |s.qs|
      && s.qs[q].submitted <= a.qs[q].submitted && Told(s.qs[q]) <= Told(a.qs[q]) <= |a.qs[q].submitted|
    decreases |x|
  {
    R.InvSized(s);
    if x == [] {
      assert x + y == y;
      assert R.QueueOk(s, q, s.qs[q]);
    } else {
      assert (x + y)[1..] == x[1..] + y && (x + y)[0] == x[0];
      EventGrows(s, x[0], q);
      RunGrows(R.Apply(s, x[0]), x[1..], y, v, q);
    }
  }

  lemma TellingTells(s: R.Sys, e: R.Event, q: nat)
    requires R.Inv(s) && R.Sized(s) && R.Enabled(s, e) && OnQueue(q, [e])
    ensures q < |s.qs|
    ensures var u, w := s.qs[q], R.Apply(s, e).qs[q];
      && (e.Enqueue? ==> w.submitted == u.submitted + [Cmd(e.t, e.body)])
      && (e.Commit? ==> w.submitted == u.submitted)
      && (Tells(e) ==> Told(w) == |w.submitted|)
  {
    assert [e][0] == e;
    R.EventInv(s, e);
    assert R.QueueOk(s, q, s.qs[q]);
    assert R.QueueOk(R.Apply(s, e), q, R.Apply(s, e).qs[q]);
  }

  /** The next event of the call. */
  lemma OwnEvent(a: R.Sys, e: R.Event, rest: seq<R.Event>, v: R.Sys, q: nat)
    requires R.Inv(a) && R.Sized(a) && R.IsRun(a, [e] + rest, v) && OnQueue(q, [e]) && q < |a.qs|
    ensures R.Enabled(a, e)
    ensures var b := R.Apply(a, e);
      && R.Inv(b) && R.IsRun(b, rest, v) && |b.qs| == |a.qs|
      && a.qs[q].submitted <= b.qs[q].submitted && Told(a.qs[q]) <= Told(b.qs[q])
      && (e.Enqueue? ==> b.qs[q].submitted == a.qs[q].submitted + [Cmd(e.t, e.body)])
      && (Tells(e) ==> Told(b.qs[q]) == |b.qs[q].submitted|)
  {
    assert ([e] + rest)[0] == e && ([e] + rest)[1..] == rest;
    EventGrows(a, e, q);
    TellingTells(a, e, q);
  }

  lemma {:induction false} WeaveTells(s: R.Sys, own: seq<R.Event>, others: seq<seq<R.Event>>, q: nat, v: R.Sys)
    requires |others| == |own| + 1 && R.Inv(s) && R.IsRun(s, Weave(own, others), v)
    requires q < |s.qs| && OnQueue(q, own) && !EndsUntold(own, false)
    ensures OwnTold(s, own, others, q, v) && q < |v.qs| && s.qs[q].submitted <= v.qs[q].submitted
    ensures own != [] ==> |s.qs[q].submitted| <= Told(v.qs[q])
    ensures Told(s.qs[q]) <= Told(v.qs[q]) <= |v.qs[q].submitted|
    decreases |own|
  {
    var a := After(s, others[0]);
    if own == [] {
      assert others[0] + [] == others[0];
      RunGrows(s, others[0], [], v, q);
    } else {
      var e, rest := own[0], Weave(own[1..], others[1..]);
      RunGrows(s, others[0], [e] + rest, v, q);
      OwnEvent(a, e, rest, v, q);
      WeaveTells(R.Apply(a, e), own[1..], others[1..], q, v);
      if e.Enqueue? { NowTold(a.qs[q], R.Apply(a, e).qs[q], v.qs[q], Cmd(e.t, e.body)); }
    }
  }

  lemma NowTold(u: R.Queue, w: R.Queue, x: R.Queue, c: Cmd)
    requires w.submitted == u.submitted + [c] && w.submitted <= x.submitted
    requires |w.submitted| <= Told(x) <= |x.submitted|
    ensures CommandTold(u, x, c)
  {
    assert x.submitted[|u.submitted|] == w.submitted[|u.submitted|];
  }

  /** A call on a list of requests, from any reachable state, in the company of any other events: unless
      it is stranded, on return the controller has been told of every command that it copied. */
  lemma DispatchTellsController(s0: R.Sys, pre: seq<R.Event>, s: R.Sys, q: nat, list: seq<D.Id>, budgets: nat,
                                env: seq<D.Env>, sq: Sq, others: seq<seq<R.Event>>, v: R.Sys)
    requires R.Initial(s0) && R.IsRun(s0, pre, s) && q < |s.qs|
    requires |env| >= |list| && D.RingSized(sq) && !D.Stranded(|list|, env, budgets)
    requires |others| == |Acts(q, D.Start(list, budgets, sq), env)| + 1
    requires R.IsRun(s, Weave(Acts(q, D.Start(list, budgets, sq), env), others), v)
    ensures OwnTold(s, Acts(q, D.Start(list, budgets, sq), env), others, q, v)
  {
    R.InitialInv(s0);
    R.RunInv(s0, pre, s);
    var start := D.Start(list, budgets, sq);
    D.DirtyIsStranded(|list|, env, budgets);
    ActsTell(q, start, env, false);
    ActsOnQueue(q, start, env);
    WeaveTells(s, Acts(q, start, env), others, q, v);
  }
}
