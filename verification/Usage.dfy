/**
 Which CPUs use which submission queue (daredevil/block/blk-blex.c:364-441, 505-543, 87-95, 206-247).
 Every CPU has a map from queue ids to the number of tasks that use the queue there; every queue has
 a mask of CPUs. Setting or clearing one use is one step.
*/
module Usages {

  /** maps and nrInUse are indexed by CPU, masks by queue id - 1. */
  datatype Usage = Usage(maps: seq<map<nat, nat>>, nrInUse: seq<int>, masks: seq<set<nat>>)

  predicate Shape(u: Usage, cpus: nat, max: nat) {
    |u.maps| == |u.nrInUse| == cpus && |u.masks| == max
  }

  predicate Place(u: Usage, cpu: nat, q: nat) {
    |u.maps| == |u.nrInUse| && cpu < |u.maps| && 1 <= q <= |u.masks|
  }

  /** xa_store and xa_erase. */
  function Store(m: map<nat, nat>, q: nat, v: nat): map<nat, nat> { m[q := v] }
  function Erase(m: map<nat, nat>, q: nat): map<nat, nat> { m - {q} }

  /** blk_blex_set_maps. */
  function SetMaps(u: Usage, cpu: nat, q: nat): (r: Usage)
    requires Place(u, cpu, q)
    ensures Shape(r, |u.maps|, |u.masks|)
  {
    var m := u.maps[cpu];
    Usage(
      u.maps[cpu := Store(m, q, if q in m then m[q] + 1 else 1)],
      if q in m then u.nrInUse else u.nrInUse[cpu := u.nrInUse[cpu] + 1],
      u.masks[q - 1 := u.masks[q - 1] + {cpu}])
  }

  /** blk_blex_clear_maps. */
  function ClearMaps(u: Usage, cpu: nat, q: nat): (r: Usage)
    requires Place(u, cpu, q)
    ensures Shape(r, |u.maps|, |u.masks|)
  {
    var m := u.maps[cpu];
    if q !in m then u.(masks := u.masks[q - 1 := u.masks[q - 1] - {cpu}])
    else if m[q] > 1 then u.(maps := u.maps[cpu := Store(m, q, m[q] - 1)])
    else Usage(u.maps[cpu := Erase(m, q)], u.nrInUse[cpu := u.nrInUse[cpu] - 1],
               u.masks[q - 1 := u.masks[q - 1] - {cpu}])
  }

  // ----- Masks, maps and counters agree -----

  predicate MapOk(u: Usage, cpu: nat)
    requires cpu < |u.maps| == |u.nrInUse|
  {
    u.nrInUse[cpu] == |u.maps[cpu]| && forall q :: q in u.maps[cpu] ==> u.maps[cpu][q] >= 1 && 1 <= q <= |u.masks|
  }

  predicate MaskOk(u: Usage, k: nat)
    requires k < |u.masks|
  {
    forall cpu :: 0 <= cpu < |u.maps| ==> (cpu in u.masks[k] <==> k + 1 in u.maps[cpu])
  }

  predicate Consistent(u: Usage) {
    && |u.maps| == |u.nrInUse|
    && (forall cpu :: 0 <= cpu < |u.maps| ==> MapOk(u, cpu))
    && (forall k :: 0 <= k < |u.masks| ==> MaskOk(u, k))
  }

  lemma EraseSize(m: map<nat, nat>, q: nat)
    requires q in m
    ensures |m - {q}| == |m| - 1
  {
    assert (m - {q}).Keys == m.Keys - {q};
    assert |m.Keys - {q}| == |m.Keys| - 1;
  }

  lemma StoreSize(m: map<nat, nat>, q: nat, v: nat)
    ensures |m[q := v]| == if q in m then |m| else |m| + 1
  {
    assert m[q := v].Keys == m.Keys + {q};
    if q in m { assert m.Keys + {q} == m.Keys; }
  }

  lemma SetKeepsConsistent(u: Usage, cpu: nat, q: nat)
    requires Consistent(u) && Place(u, cpu, q)
    ensures Consistent(SetMaps(u, cpu, q))
  {
    var r, m := SetMaps(u, cpu, q), u.maps[cpu];
    assert MapOk(u, cpu);
    StoreSize(m, q, if q in m then m[q] + 1 else 1);
    forall c | 0 <= c < |r.maps| ensures MapOk(r, c) { assert MapOk(u, c); }
    forall k | 0 <= k < |r.masks| ensures MaskOk(r, k) { assert MaskOk(u, k); }
  }

  lemma ClearKeepsConsistent(u: Usage, cpu: nat, q: nat)
    requires Consistent(u) && Place(u, cpu, q)
    ensures Consistent(ClearMaps(u, cpu, q))
  {
    var r, m := ClearMaps(u, cpu, q), u.maps[cpu];
    assert MapOk(u, cpu);
    if q in m && m[q] > 1 { StoreSize(m, q, m[q] - 1); } else if q in m { EraseSize(m, q); }
    forall c | 0 <= c < |r.maps| ensures MapOk(r, c) { assert MapOk(u, c); }
    forall k | 0 <= k < |r.masks| ensures MaskOk(r, k) { assert MaskOk(u, k); }
  }

  datatype Op = Set(cpu: nat, q: nat) | Clear(cpu: nat, q: nat)

  function Do(u: Usage, op: Op): (r: Usage)
    requires Place(u, op.cpu, op.q)
    ensures Shape(r, |u.maps|, |u.masks|)
  {
    match op
    case Set(cpu, q) => SetMaps(u, cpu, q)
    case Clear(cpu, q) => ClearMaps(u, cpu, q)
  }

  function Ops(u: Usage, ops: seq<Op>): (r: Usage)
    requires |u.maps| == |u.nrInUse|
    requires forall i :: 0 <= i < |ops| ==> Place(u, ops[i].cpu, ops[i].q)
    ensures Shape(r, |u.maps|, |u.masks|)
  {
    if ops == [] then u
    else
      var n := |ops| - 1;
      assert Place(u, ops[n].cpu, ops[n].q);
      Do(Ops(u, ops[..n]), ops[n])
  }

  /** Over every run of set and clear on any CPU and queue, even clears without a set, a CPU is in the
      mask of exactly the queues its map holds, with a positive count, and nr_in_use counts them. */
  lemma {:induction false} OpsKeepConsistent(u: Usage, ops: seq<Op>)
    requires Consistent(u) && forall i :: 0 <= i < |ops| ==> Place(u, ops[i].cpu, ops[i].q)
    ensures Consistent(Ops(u, ops))
  {
    if ops != [] {
      var n := |ops| - 1;
      OpsKeepConsistent(u, ops[..n]);
      var r := Ops(u, ops[..n]);
      if ops[n].Set? { SetKeepsConsistent(r, ops[n].cpu, ops[n].q); }
      else { ClearKeepsConsistent(r, ops[n].cpu, ops[n].q); }
    }
  }

  // ----- Counts -----

  function Count(u: Usage, cpu: nat, q: nat): nat {
    if cpu < |u.maps| && q in u.maps[cpu] then u.maps[cpu][q] else 0
  }

  lemma SetCounts(u: Usage, cpu: nat, q: nat, c: nat, p: nat)
    requires Place(u, cpu, q)
    ensures Count(SetMaps(u, cpu, q), c, p) == Count(u, c, p) + if c == cpu && p == q then 1 else 0
  {
  }

  lemma ClearCounts(u: Usage, cpu: nat, q: nat, c: nat, p: nat)
    requires Place(u, cpu, q) && Consistent(u)
    ensures Count(ClearMaps(u, cpu, q), c, p) ==
      Count(u, c, p) - if c == cpu && p == q && Count(u, c, p) > 0 then 1 else 0
  {
    assert MapOk(u, cpu);
  }

  // ----- Tasks -----

  /** Where a task is recorded: last_working_cpu and the queue of its context. */
  datatype Home = Home(cpu: nat, q: nat)

  type Tasks = map<nat, Home>

  /** The tasks recorded at a place. */
  function At(ts: Tasks, cpu: nat, q: nat): set<nat> {
    set t | t in ts && ts[t] == Home(cpu, q)
  }

  /** Each counter is the number of live tasks recorded there. */
  ghost predicate Accurate(u: Usage, ts: Tasks) {
    forall cpu: nat, q: nat :: Count(u, cpu, q) == |At(ts, cpu, q)|
  }

  predicate Homes(u: Usage, ts: Tasks) {
    forall t :: t in ts ==> Place(u, ts[t].cpu, ts[t].q)
  }

  datatype State = State(u: Usage, tasks: Tasks)

  ghost predicate Good(s: State) {
    Consistent(s.u) && Homes(s.u, s.tasks) && Accurate(s.u, s.tasks)
  }

  lemma Join(ts: Tasks, t: nat, h: Home, cpu: nat, q: nat)
    requires t !in ts
    ensures |At(ts[t := h], cpu, q)| == |At(ts, cpu, q)| + if h == Home(cpu, q) then 1 else 0
  {
    var (a, b) := (At(ts, cpu, q), At(ts[t := h], cpu, q));
    if h == Home(cpu, q) { assert b == a + {t}; } else { assert b == a; }
  }

  lemma Leave(ts: Tasks, t: nat, cpu: nat, q: nat)
    requires t in ts
    ensures |At(ts - {t}, cpu, q)| == |At(ts, cpu, q)| - if ts[t] == Home(cpu, q) then 1 else 0
  {
    var (a, b) := (At(ts, cpu, q), At(ts - {t}, cpu, q));
    if ts[t] == Home(cpu, q) {
      assert a == b + {t};
    } else {
      assert b == a;
    }
  }

  lemma Rehome(ts: Tasks, t: nat, h: Home, cpu: nat, q: nat)
    requires t in ts
    ensures |At(ts[t := h], cpu, q)| == |At(ts, cpu, q)|
      - (if ts[t] == Home(cpu, q) then 1 else 0) + (if h == Home(cpu, q) then 1 else 0)
  {
    Leave(ts, t, cpu, q);
    Join(ts - {t}, t, h, cpu, q);
    assert (ts - {t})[t := h] == ts[t := h];
  }

  // ----- What tasks do -----

  /** A task starts to use queue q on a CPU (blk-blex.c:467-470). */
  function Start(s: State, t: nat, cpu: nat, q: nat): State
    requires Place(s.u, cpu, q)
  {
    State(SetMaps(s.u, cpu, q), s.tasks[t := Home(cpu, q)])
  }

  /** blk_blex_free_task_ioc. */
  function Exit(s: State, t: nat): State
    requires t in s.tasks && Homes(s.u, s.tasks)
  {
    State(ClearMaps(s.u, s.tasks[t].cpu, s.tasks[t].q), s.tasks - {t})
  }

  /** The task is seen on another CPU (blk-blex.c:206-214). The current CPU is read three times: to
      compare, to set the use, and to record it. */
  function Move(s: State, t: nat, seen: nat, cpu: nat, last: nat): State
    requires t in s.tasks && Homes(s.u, s.tasks) && cpu < |s.u.maps| && last < |s.u.maps|
  {
    var h := s.tasks[t];
    if h.cpu == seen then s
    else State(SetMaps(ClearMaps(s.u, h.cpu, h.q), cpu, h.q), s.tasks[t := Home(last, h.q)])
  }

  /** The maps after blk_blex_sched_task_update chose queue q for a task at home h: task_cpu gives
      `seen`, and get_cpu, read later, gives `cpu`. */
  function Reschedule(u: Usage, h: Home, seen: nat, cpu: nat, q: nat): (r: Usage)
    requires Place(u, h.cpu, h.q) && Place(u, cpu, q)
    ensures Shape(r, |u.maps|, |u.masks|)
  {
    if q == h.q then u
    else
      var v := if h.cpu != seen then ClearMaps(u, h.cpu, h.q) else u;
      ClearMaps(SetMaps(v, cpu, q), cpu, h.q)
  }

  /** A task update with its result stored in the task's context (blk-blex.c:218-229). */
  function Update(s: State, t: nat, seen: nat, cpu: nat, q: nat): State
    requires t in s.tasks && Homes(s.u, s.tasks) && Place(s.u, cpu, q)
  {
    var h := s.tasks[t];
    State(Reschedule(s.u, h, seen, cpu, q), if q == h.q then s.tasks else s.tasks[t := Home(cpu, q)])
  }

  /** The same update for an outlier queue, which leaves the context's queue (blk-blex.c:243-248). */
  function Outlier(s: State, t: nat, seen: nat, cpu: nat, q: nat): State
    requires t in s.tasks && Homes(s.u, s.tasks) && Place(s.u, cpu, q)
  {
    var h := s.tasks[t];
    State(Reschedule(s.u, h, seen, cpu, q), if q == h.q then s.tasks else s.tasks[t := Home(cpu, h.q)])
  }

  lemma RescheduleConsistent(u: Usage, h: Home, seen: nat, cpu: nat, q: nat)
    requires Consistent(u) && Place(u, h.cpu, h.q) && Place(u, cpu, q)
    ensures Consistent(Reschedule(u, h, seen, cpu, q))
  {
    if q != h.q {
      var v := if h.cpu != seen then ClearMaps(u, h.cpu, h.q) else u;
      if h.cpu != seen { ClearKeepsConsistent(u, h.cpu, h.q); }
      SetKeepsConsistent(v, cpu, q);
      ClearKeepsConsistent(SetMaps(v, cpu, q), cpu, h.q);
    }
  }

  /** How many times an update to another queue clears the old queue on CPU c. */
  function Clears(h: Home, seen: nat, cpu: nat, c: nat): nat {
    (if h.cpu != seen && c == h.cpu then 1 else 0) + (if c == cpu then 1 else 0)
  }

  function Less(n: nat, k: nat): nat { if n > k then n - k else 0 }

  /** What an update to another queue does to each counter. */
  lemma RescheduleCounts(u: Usage, h: Home, seen: nat, cpu: nat, q: nat, c: nat, p: nat)
    requires Consistent(u) && Place(u, h.cpu, h.q) && Place(u, cpu, q) && q != h.q
    ensures Count(Reschedule(u, h, seen, cpu, q), c, p) ==
      if c == cpu && p == q then Count(u, c, p) + 1
      else if p == h.q then Less(Count(u, c, p), Clears(h, seen, cpu, c))
      else Count(u, c, p)
  {
    var v := if h.cpu != seen then ClearMaps(u, h.cpu, h.q) else u;
    if h.cpu != seen { ClearKeepsConsistent(u, h.cpu, h.q); ClearCounts(u, h.cpu, h.q, c, p); }
    SetKeepsConsistent(v, cpu, q);
    SetCounts(v, cpu, q, c, p);
    ClearCounts(SetMaps(v, cpu, q), cpu, h.q, c, p);
  }

  lemma LiveHome(ts: Tasks, t: nat)
    requires t in ts
    ensures |At(ts, ts[t].cpu, ts[t].q)| >= 1
  {
    assert t in At(ts, ts[t].cpu, ts[t].q);
  }

  lemma StartKeepsGood(s: State, t: nat, cpu: nat, q: nat)
    requires Good(s) && t !in s.tasks && Place(s.u, cpu, q)
    ensures Good(Start(s, t, cpu, q))
  {
    var r := Start(s, t, cpu, q);
    SetKeepsConsistent(s.u, cpu, q);
    forall c: nat, p: nat ensures Count(r.u, c, p) == |At(r.tasks, c, p)| {
      SetCounts(s.u, cpu, q, c, p);
      Join(s.tasks, t, Home(cpu, q), c, p);
    }
  }

  lemma ExitKeepsGood(s: State, t: nat)
    requires Good(s) && t in s.tasks
    ensures Good(Exit(s, t))
  {
    var r, h := Exit(s, t), s.tasks[t];
    ClearKeepsConsistent(s.u, h.cpu, h.q);
    LiveHome(s.tasks, t);
    forall c: nat, p: nat ensures Count(r.u, c, p) == |At(r.tasks, c, p)| {
      ClearCounts(s.u, h.cpu, h.q, c, p);
      Leave(s.tasks, t, c, p);
    }
  }

  /** A task seen on another CPU takes its use along, if and only if the CPU recorded is the one on
      which the use was set. */
  lemma MoveKeepsGoodIff(s: State, t: nat, seen: nat, cpu: nat, last: nat)
    requires Good(s) && t in s.tasks && cpu < |s.u.maps| && last < |s.u.maps|
    ensures Good(Move(s, t, seen, cpu, last)) <==> s.tasks[t].cpu == seen || cpu == last
  {
    var r, h := Move(s, t, seen, cpu, last), s.tasks[t];
    if h.cpu != seen {
      var v := ClearMaps(s.u, h.cpu, h.q);
      ClearKeepsConsistent(s.u, h.cpu, h.q);
      SetKeepsConsistent(v, cpu, h.q);
      LiveHome(s.tasks, t);
      forall c: nat, p: nat
        ensures Count(r.u, c, p) == |At(r.tasks, c, p)| <==> cpu == last || p != h.q || (c != cpu && c != last)
      {
        ClearCounts(s.u, h.cpu, h.q, c, p);
        SetCounts(v, cpu, h.q, c, p);
        Rehome(s.tasks, t, Home(last, h.q), c, p);
      }
      assert Good(r) ==> Count(r.u, cpu, h.q) == |At(r.tasks, cpu, h.q)|;
    }
  }

  /** Whether an update that read the CPUs seen and cpu gives up the old use of t exactly once. */
  predicate ClearsOnce(ts: Tasks, t: nat, seen: nat, cpu: nat)
    requires t in ts
  {
    var h := ts[t];
    if h.cpu == seen then cpu == seen else At(ts, cpu, h.q) <= {t}
  }

  lemma OnlyMe(ts: Tasks, t: nat, cpu: nat)
    requires t in ts
    ensures var h := ts[t]; var n := |At(ts, cpu, h.q)|;
      At(ts, cpu, h.q) <= {t} <==> n == if cpu == h.cpu then 1 else 0
  {
    var a := At(ts, cpu, ts[t].q);
    if cpu == ts[t].cpu {
      assert t in a && |a - {t}| == |a| - 1;
      if |a| == 1 { assert a - {t} == {}; }
      if a <= {t} { assert a == {t}; }
    } else if a <= {t} {
      assert t !in a;
      assert a == {};
    }
  }

  lemma UpdateCount(s: State, t: nat, seen: nat, cpu: nat, q: nat, c: nat, p: nat)
    requires Good(s) && t in s.tasks && Place(s.u, cpu, q) && q != s.tasks[t].q
    ensures var r, h := Update(s, t, seen, cpu, q), s.tasks[t];
      && (p != h.q || ClearsOnce(s.tasks, t, seen, cpu) ==> Count(r.u, c, p) == |At(r.tasks, c, p)|)
      && (p == h.q && c == (if h.cpu == seen then seen else cpu) && !ClearsOnce(s.tasks, t, seen, cpu) ==>
            Count(r.u, c, p) != |At(r.tasks, c, p)|)
  {
    LiveHome(s.tasks, t);
    OnlyMe(s.tasks, t, cpu);
    RescheduleCounts(s.u, s.tasks[t], seen, cpu, q, c, p);
    Rehome(s.tasks, t, Home(cpu, q), c, p);
  }

  /** The exact condition for a task update. When the task was recorded on the CPU that it reads first,
      the second reading must agree. Otherwise its old use is cleared there and once more on the CPU
      read second, which goes wrong exactly if another task uses the old queue on that CPU. The code at
      blk-blex.c:206-214 has just recorded the current CPU, so either takes a migration after it. */
  lemma UpdateKeepsGoodIff(s: State, t: nat, seen: nat, cpu: nat, q: nat)
    requires Good(s) && t in s.tasks && Place(s.u, cpu, q)
    ensures Good(Update(s, t, seen, cpu, q)) <==> q == s.tasks[t].q || ClearsOnce(s.tasks, t, seen, cpu)
  {
    var r, h := Update(s, t, seen, cpu, q), s.tasks[t];
    if q != h.q {
      RescheduleConsistent(s.u, h, seen, cpu, q);
      if ClearsOnce(s.tasks, t, seen, cpu) {
        forall c: nat, p: nat ensures Count(r.u, c, p) == |At(r.tasks, c, p)| {
          UpdateCount(s, t, seen, cpu, q, c, p);
        }
      } else {
        UpdateCount(s, t, seen, cpu, q, if h.cpu == seen then seen else cpu, h.q);
      }
    }
  }

  /** An update for an outlier queue makes the counters wrong whenever it picks another queue. */
  lemma OutlierKeepsGoodIff(s: State, t: nat, seen: nat, cpu: nat, q: nat)
    requires Good(s) && t in s.tasks && Place(s.u, cpu, q)
    ensures Good(Outlier(s, t, seen, cpu, q)) <==> q == s.tasks[t].q
  {
    var r, h := Outlier(s, t, seen, cpu, q), s.tasks[t];
    if q != h.q {
      RescheduleCounts(s.u, h, seen, cpu, q, cpu, q);
      Rehome(s.tasks, t, Home(cpu, h.q), cpu, q);
      assert Count(r.u, cpu, q) != |At(r.tasks, cpu, q)|;
    }
  }

  // ----- Runs of tasks -----

  datatype Event =
    | StartEv(t: nat, cpu: nat, q: nat)
    | ExitEv(t: nat)
    | MoveEv(t: nat, seen: nat, cpu: nat, last: nat)
    | UpdateEv(t: nat, seen: nat, cpu: nat, q: nat)
    | OutlierEv(t: nat, seen: nat, cpu: nat, q: nat)

  predicate Possible(s: State, e: Event) {
    && Homes(s.u, s.tasks)
    && match e
       case StartEv(t, cpu, q) => t !in s.tasks && Place(s.u, cpu, q)
       case ExitEv(t) => t in s.tasks
       case MoveEv(t, _, cpu, last) => t in s.tasks && cpu < |s.u.maps| && last < |s.u.maps|
       case UpdateEv(t, _, cpu, q) => t in s.tasks && Place(s.u, cpu, q)
       case OutlierEv(t, _, cpu, q) => t in s.tasks && Place(s.u, cpu, q)
  }

  function Apply(s: State, e: Event): State
    requires Possible(s, e)
  {
    match e
    case StartEv(t, cpu, q) => Start(s, t, cpu, q)
    case ExitEv(t) => Exit(s, t)
    case MoveEv(t, seen, cpu, last) => Move(s, t, seen, cpu, last)
    case UpdateEv(t, seen, cpu, q) => Update(s, t, seen, cpu, q)
    case OutlierEv(t, seen, cpu, q) => Outlier(s, t, seen, cpu, q)
  }

  /** An event that keeps the counters right. */
  predicate Harmless(s: State, e: Event)
    requires Possible(s, e)
  {
    match e
    case MoveEv(t, seen, cpu, last) => s.tasks[t].cpu == seen || cpu == last
    case UpdateEv(t, seen, cpu, q) => q == s.tasks[t].q || ClearsOnce(s.tasks, t, seen, cpu)
    case OutlierEv(t, _, _, q) => q == s.tasks[t].q
    case _ => true
  }

  lemma ApplyKeepsGoodIff(s: State, e: Event)
    requires Good(s) && Possible(s, e)
    ensures Good(Apply(s, e)) <==> Harmless(s, e)
  {
    match e
    case StartEv(t, cpu, q) => StartKeepsGood(s, t, cpu, q);
    case ExitEv(t) => ExitKeepsGood(s, t);
    case MoveEv(t, seen, cpu, last) => MoveKeepsGoodIff(s, t, seen, cpu, last);
    case UpdateEv(t, seen, cpu, q) => UpdateKeepsGoodIff(s, t, seen, cpu, q);
    case OutlierEv(t, seen, cpu, q) => OutlierKeepsGoodIff(s, t, seen, cpu, q);
  }

  /** The state after a run from s, and whether every event was possible and harmless. */
  function Run(s: State, es: seq<Event>): (r: (State, bool))
    decreases |es|
  {
    if es == [] then (s, true)
    else if Possible(s, es[0]) && Harmless(s, es[0]) then Run(Apply(s, es[0]), es[1..])
    else (s, false)
  }

  /** Over every run of harmless events each counter is the number of live tasks there, and when all
      tasks have exited every map, counter and mask is empty. */
  lemma {:induction false} RunsAreAccurate(s: State, es: seq<Event>)
    requires Good(s) && Run(s, es).1
    ensures var r := Run(s, es).0;
      Good(r) && (r.tasks == map[] ==> Empty(r.u))
    decreases |es|
  {
    if es == [] {
      if s.tasks == map[] { NobodyLeft(s); }
    } else {
      ApplyKeepsGoodIff(s, es[0]);
      RunsAreAccurate(Apply(s, es[0]), es[1..]);
    }
  }

  predicate Empty(u: Usage) {
    && |u.maps| == |u.nrInUse|
    && (forall cpu :: 0 <= cpu < |u.maps| ==> u.maps[cpu] == map[] && u.nrInUse[cpu] == 0)
    && (forall k, cpu :: 0 <= k < |u.masks| && 0 <= cpu < |u.maps| ==> cpu !in u.masks[k])
  }

  /** Maps of any size that have just been set up are right as long as there is no task. */
  lemma EmptyIsGood(u: Usage)
    requires Consistent(u) && Empty(u)
    ensures Good(State(u, map[]))
  {
    forall c: nat, p: nat ensures Count(u, c, p) == |At(map[], c, p)| { assert At(map[], c, p) == {}; }
  }

  lemma NoUse(s: State, cpu: nat, q: nat)
    requires Good(s) && s.tasks == map[] && cpu < |s.u.maps|
    ensures q !in s.u.maps[cpu]
  {
    assert MapOk(s.u, cpu);
    assert At(s.tasks, cpu, q) == {};
    assert Count(s.u, cpu, q) == 0;
  }

  lemma NobodyLeft(s: State)
    requires Good(s) && s.tasks == map[]
    ensures Empty(s.u)
  {
    forall cpu | 0 <= cpu < |s.u.maps| ensures s.u.maps[cpu] == map[] && s.u.nrInUse[cpu] == 0 {
      assert MapOk(s.u, cpu);
      forall q | q in s.u.maps[cpu] ensures false { NoUse(s, cpu, q); }
    }
    forall k, cpu | 0 <= k < |s.u.masks| && 0 <= cpu < |s.u.maps| ensures cpu !in s.u.masks[k] {
      assert MaskOk(s.u, k);
    }
  }

  // ----- Two updates that go wrong -----

  /** Two CPUs, two queues, no task. */
  const NONE: State := State(Usage([map[], map[]], [0, 0], [{}, {}]), map[])

  /** Tasks 0 and 1 use queue 1, on CPUs 0 and 1. */
  const BOTH: State :=
    State(Usage([map[1 := 1], map[1 := 1]], [1, 1], [{0, 1}, {}]), map[0 := Home(0, 1), 1 := Home(1, 1)])

  /** Task 0 alone. */
  const ONE: State := State(Usage([map[1 := 1], map[]], [1, 0], [{0}, {}]), map[0 := Home(0, 1)])

  lemma FirstStart()
    ensures Good(NONE) && Place(NONE.u, 0, 1) && Start(NONE, 0, 0, 1) == ONE
  {
    forall c: nat, p: nat ensures Count(NONE.u, c, p) == |At(NONE.tasks, c, p)| { assert At(NONE.tasks, c, p) == {}; }
    var r := Start(NONE, 0, 0, 1).u;
    assert r.masks[0] == {0} && r.masks[1] == {} && r.maps[0] == map[1 := 1] && r.maps[1] == map[];
    assert r.masks == ONE.u.masks && r.maps == ONE.u.maps && r.nrInUse == ONE.u.nrInUse;
  }

  lemma SecondStart()
    ensures Place(ONE.u, 1, 1) && Start(ONE, 1, 1, 1) == BOTH
  {
    var r := Start(ONE, 1, 1, 1).u;
    assert r.masks[0] == {0, 1} && r.masks[1] == {} && r.maps[0] == map[1 := 1] && r.maps[1] == map[1 := 1];
    assert r.masks == BOTH.u.masks && r.maps == BOTH.u.maps && r.nrInUse == BOTH.u.nrInUse;
  }

  /** BOTH is reached from NONE by starting the two tasks. */
  lemma BothStart()
    ensures Good(NONE) && Run(NONE, [StartEv(0, 0, 1), StartEv(1, 1, 1)]) == (BOTH, true) && Good(BOTH)
  {
    FirstStart();
    StartKeepsGood(NONE, 0, 0, 1);
    SecondStart();
    StartKeepsGood(ONE, 1, 1, 1);
    assert [StartEv(0, 0, 1), StartEv(1, 1, 1)][1..] == [StartEv(1, 1, 1)];
    assert Run(ONE, [StartEv(1, 1, 1)]) == Run(BOTH, []);
  }

  /** Task 0, recorded on CPU 0, is seen on CPU 1 and its use is set there, but it is back on CPU 0 when
      its CPU is recorded: no counter says that it uses queue 1 there, and the use on CPU 1 remains when
      it exits. */
  lemma MoveLeavesAUse()
    ensures Good(ONE) && Possible(ONE, MoveEv(0, 1, 1, 0))
    ensures var r := Apply(ONE, MoveEv(0, 1, 1, 0));
      && r.tasks[0] == Home(0, 1) && Count(r.u, 0, 1) == 0 && Count(r.u, 1, 1) == 1 && !Good(r)
      && Possible(r, ExitEv(0)) && Count(Apply(r, ExitEv(0)).u, 1, 1) == 1
  {
    FirstStart();
    StartKeepsGood(NONE, 0, 0, 1);
    MoveKeepsGoodIff(ONE, 0, 1, 1, 0);
    var r, v := Apply(ONE, MoveEv(0, 1, 1, 0)), ClearMaps(ONE.u, 0, 1);
    ClearKeepsConsistent(ONE.u, 0, 1);
    SetKeepsConsistent(v, 1, 1);
    ClearCounts(ONE.u, 0, 1, 0, 1);
    ClearCounts(ONE.u, 0, 1, 1, 1);
    SetCounts(v, 1, 1, 0, 1);
    SetCounts(v, 1, 1, 1, 1);
    ClearCounts(r.u, 0, 1, 1, 1);
  }

  /** Task 0 migrates to CPU 1 after its CPU was recorded, and then its update picks queue 2: task 1
      still uses queue 1 on CPU 1, but no counter and no mask says so. */
  lemma UpdateLosesAUse()
    ensures Good(BOTH) && Possible(BOTH, UpdateEv(0, 1, 1, 2))
    ensures var r := Apply(BOTH, UpdateEv(0, 1, 1, 2));
      r.tasks[1] == Home(1, 1) && Count(r.u, 1, 1) == 0 && 1 !in r.u.masks[0] && !Good(r)
  {
    BothStart();
    var r := Apply(BOTH, UpdateEv(0, 1, 1, 2));
    RescheduleCounts(BOTH.u, Home(0, 1), 1, 1, 2, 1, 1);
    RescheduleConsistent(BOTH.u, Home(0, 1), 1, 1, 2);
    assert MaskOk(r.u, 0);
    LiveHome(r.tasks, 1);
  }

  /** Task 0, on its recorded CPU, gets outlier queue 2: it still has queue 1, but no counter says so,
      and the use of queue 2 remains when it exits. */
  lemma OutlierLeavesAUse()
    ensures Good(BOTH) && Possible(BOTH, OutlierEv(0, 0, 0, 2))
    ensures var r := Apply(BOTH, OutlierEv(0, 0, 0, 2));
      && r.tasks[0] == Home(0, 1) && Count(r.u, 0, 1) == 0 && !Good(r)
      && Possible(r, ExitEv(0)) && Count(Apply(r, ExitEv(0)).u, 0, 2) == 1
  {
    BothStart();
    var r := Apply(BOTH, OutlierEv(0, 0, 0, 2));
    RescheduleCounts(BOTH.u, Home(0, 1), 0, 0, 2, 0, 1);
    RescheduleCounts(BOTH.u, Home(0, 1), 0, 0, 2, 0, 2);
    RescheduleConsistent(BOTH.u, Home(0, 1), 0, 0, 2);
    LiveHome(r.tasks, 0);
    ClearCounts(r.u, 0, 1, 0, 2);
  }
}
