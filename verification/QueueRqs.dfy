/**
 nvme_queue_rqs (daredevil/drivers/nvme/host/pci.c:1080-1109): a singly linked request list is cut
 in place into batches for one hardware queue each, and the requests that cannot be prepared are
 relinked into the list that is returned.
*/
module QueueRqs {
  import opened Seqs

  class Request {
    var rqNext: Request?
    const hctx: nat          // mq_hctx

    constructor (h: nat)
      ensures hctx == h && rqNext == null
    {
      hctx, rqNext := h, null;
    }
  }

  /** The requests of s are linked in order, and the last one leads to `end`. */
  ghost predicate Linked(s: seq<Request>, end: Request?)
    reads s
  {
    && (forall i :: 0 <= i < |s| - 1 ==> s[i].rqNext == s[i + 1])
    && (s != [] ==> s[|s| - 1].rqNext == end)
  }

  ghost predicate Apart(s: seq<Request>, t: seq<Request>) { forall r :: r in s ==> r !in t }

  /** What can be written through a pointer. */
  ghost function Cell(r: Request?): set<Request> { if r == null then {} else {r} }

  ghost function Head(s: seq<Request>): Request? { if s == [] then null else s[0] }

  ghost function Last(s: seq<Request>): Request? { if s == [] then null else s[|s| - 1] }

  /** The first request of s, or of what follows it. */
  ghost function First(s: seq<Request>, end: Request?): Request? { if s == [] then end else s[0] }

  /** rq_list_move: req, behind the requests `before`, leaves the list and goes to the front of dst. */
  method RqListMove(src: Request?, dst: Request?, req: Request, prev: Request?,
                    ghost before: seq<Request>, ghost moved: seq<Request>)
    returns (src': Request?, dst': Request?)
    requires Linked(before, req) && Linked(moved, null) && dst == Head(moved)
    requires src == First(before, req) && prev == Last(before)
    requires Distinct(before) && req !in before && req !in moved && Apart(moved, before)
    modifies Cell(prev), req
    ensures Linked(before, old(req.rqNext)) && src' == First(before, old(req.rqNext))
    ensures Linked([req] + moved, null) && dst' == req
  {
    src', dst' := src, req;
    if prev != null {
      assert prev in before;
      prev.rqNext := req.rqNext;
    } else {
      src' := req.rqNext;
    }
    req.rqNext := dst;
  }

  /** nvme_submit_cmds: pops every request of the list; what it copies to the ring, in order. */
  method SubmitCmds(rqlist: Request?, ghost s: seq<Request>) returns (copied: seq<Request>)
    requires Linked(s, null) && rqlist == Head(s)
    ensures copied == s
  {
    copied := [];
    var head := rqlist;
    while head != null
      invariant |copied| <= |s| && copied == s[..|copied|] && Linked(s, null)
      invariant head == if |copied| < |s| then s[|copied|] else null
      decreases |s| - |copied|
    {
      copied := copied + [head];
      head := head.rqNext;
    }
  }

  /** Detaches the rest of the list behind last and submits what comes before it. */
  method Cut(list: Request?, last: Request, ghost b: seq<Request>) returns (copied: seq<Request>)
    requires b != [] && Last(b) == last && Linked(b, last.rqNext) && Distinct(b) && list == b[0]
    modifies last
    ensures copied == b
  {
    last.rqNext := null;
    copied := SubmitCmds(list, b);
  }

  // ----- What the batches must be -----

  function Prepared(s: seq<Request>, fails: set<Request>): seq<Request> {
    if s == [] then [] else (if s[0] in fails then [] else [s[0]]) + Prepared(s[1..], fails)
  }

  /** The failed requests, last one first. */
  function FailedRev(s: seq<Request>, fails: set<Request>): seq<Request> {
    if s == [] then [] else FailedRev(s[1..], fails) + (if s[0] in fails then [s[0]] else [])
  }

  /** One call of nvme_submit_cmds: the queue whose lock it takes and doorbell it rings, and the
      requests it copies. */
  datatype Batch = Batch(queue: nat, reqs: seq<Request>)

  /** The batches of a list of which the prepared requests `batch` have been collected: one for each
      stretch of requests with the same hardware queue, unless none of it could be prepared. */
  function Batches(s: seq<Request>, batch: seq<Request>, fails: set<Request>): seq<Batch> {
    if s == [] then []
    else
      var b := if s[0] in fails then batch else batch + [s[0]];
      if |s| == 1 || s[0].hctx != s[1].hctx then
        (if b == [] then [] else [Batch(s[0].hctx, b)]) + Batches(s[1..], [], fails)
      else Batches(s[1..], b, fails)
  }

  function Flat(bs: seq<Batch>): seq<Request> { if bs == [] then [] else bs[0].reqs + Flat(bs[1..]) }

  predicate AllFor(queue: nat, b: seq<Request>) { forall i :: 0 <= i < |b| ==> b[i].hctx == queue }

  /** How often the hardware queue changes along the list, plus one. */
  function Stretches(s: seq<Request>): nat {
    if s == [] then 0
    else if |s| == 1 || s[0].hctx != s[1].hctx then 1 + Stretches(s[1..])
    else Stretches(s[1..])
  }

  lemma FlatCons(b: Batch, bs: seq<Batch>)
    ensures Flat([b] + bs) == b.reqs + Flat(bs)
  {
    assert ([b] + bs)[1..] == bs;
  }

  /** The batches hand over every prepared request exactly once, in list order, each to its own
      hardware queue, none is empty, and there are no more of them than stretches. */
  lemma {:induction false} BatchesCover(s: seq<Request>, batch: seq<Request>, fails: set<Request>)
    requires batch != [] ==> s != [] && AllFor(s[0].hctx, batch)
    ensures var bs := Batches(s, batch, fails);
      && Flat(bs) == batch + Prepared(s, fails)
      && (forall k :: 0 <= k < |bs| ==> bs[k].reqs != [] && AllFor(bs[k].queue, bs[k].reqs))
      && |bs| <= Stretches(s)
    decreases |s|
  {
    if s == [] {
      assert batch == [];
    } else {
      var b := if s[0] in fails then batch else batch + [s[0]];
      assert b + Prepared(s[1..], fails) == batch + Prepared(s, fails);
      if |s| == 1 || s[0].hctx != s[1].hctx {
        BatchesCover(s[1..], [], fails);
        FirstCover(s[0].hctx, b, Batches(s[1..], [], fails), Prepared(s[1..], fails));
      } else {
        BatchesCover(s[1..], b, fails);
      }
    }
  }

  /** The batch of a stretch, unless it is empty, goes before the others. */
  lemma FirstCover(queue: nat, b: seq<Request>, rest: seq<Batch>, prepared: seq<Request>)
    requires AllFor(queue, b) && Flat(rest) == [] + prepared
    requires forall k :: 0 <= k < |rest| ==> rest[k].reqs != [] && AllFor(rest[k].queue, rest[k].reqs)
    ensures var bs := (if b == [] then [] else [Batch(queue, b)]) + rest;
      && Flat(bs) == b + prepared && |bs| <= 1 + |rest|
      && forall k :: 0 <= k < |bs| ==> bs[k].reqs != [] && AllFor(bs[k].queue, bs[k].reqs)
  {
    FlatCons(Batch(queue, b), rest);
    assert [] + prepared == prepared && [] + rest == rest;
  }

  /** The list returned holds exactly the failed requests, each once; all others have been prepared. */
  lemma {:induction false} FailedRevMembers(s: seq<Request>, fails: set<Request>)
    requires Distinct(s)
    ensures forall r :: r in FailedRev(s, fails) <==> r in s && r in fails
    ensures Distinct(FailedRev(s, fails)) && |FailedRev(s, fails)| + |Prepared(s, fails)| == |s|
    decreases |s|
  {
    if s != [] {
      FailedRevMembers(s[1..], fails);
      assert s == [s[0]] + s[1..];
      assert s[0] !in s[1..];
    }
  }

  /** Between two iterations: the list still holds the collected requests `batch`, then the requests
      `todo` that have not been looked at; the failed ones are on a list of their own. */
  ghost predicate Split(list: Request?, requeue: Request?, prev: Request?,
                        batch: seq<Request>, todo: seq<Request>, failed: seq<Request>)
    reads batch, todo, failed
  {
    && Linked(batch, Head(todo)) && Linked(todo, null) && Linked(failed, null)
    && Distinct(batch) && Distinct(todo) && Apart(todo, batch) && Apart(failed, batch) && Apart(failed, todo)
    && list == First(batch, Head(todo)) && requeue == Head(failed) && prev == Last(batch)
  }

  /** The request looked at joins the batch, or moves to the list of the failed. */
  method Take(list: Request?, requeue: Request?, prev: Request?, req: Request, fail: bool,
              ghost batch: seq<Request>, ghost todo: seq<Request>, ghost failed: seq<Request>)
    returns (list': Request?, requeue': Request?, last: Request?, ghost b: seq<Request>, ghost f: seq<Request>)
    requires todo != [] && req == todo[0] && Split(list, requeue, prev, batch, todo, failed)
    modifies Cell(prev), req
    ensures b == (if fail then batch else batch + [req]) && f == (if fail then [req] + failed else failed)
    ensures Split(list', requeue', last, b, todo[1..], f) && last == if fail then prev else req
  {
    assert todo == [req] + todo[1..] && req !in todo[1..];
    if fail {
      list', requeue' := RqListMove(list, requeue, req, prev, batch, failed);
      last, b, f := prev, batch, [req] + failed;
    } else {
      list', requeue', last, b, f := list, requeue, req, batch + [req], failed;
      DistinctAppend(batch, req);
    }
  }

  /** The batch is submitted if the next request is for another queue, or there is none. */
  method SubmitAtBoundary(list: Request?, requeue: Request?, last: Request?, next: Request?,
                          ghost b: seq<Request>, ghost todo: seq<Request>, ghost failed: seq<Request>)
    returns (list': Request?, prev: Request?, copied: seq<Request>, ghost batch: seq<Request>)
    requires Split(list, requeue, last, b, todo, failed) && next == Head(todo)
    modifies Cell(last)
    ensures if CutHere(b, todo) then copied == b && batch == [] else copied == [] && batch == b
    ensures Split(list', requeue, prev, batch, todo, failed)
  {
    list', prev, copied, batch := list, last, [], b;
    if last != null && (next == null || last.hctx != next.hctx) {
      assert last in b;
      copied := Cut(list, last, b);
      list', prev, batch := next, null, [];
    }
  }

  /** How far the work on s has come: what has been submitted, collected, and put aside. */
  ghost predicate Progress(s: seq<Request>, fails: set<Request>, batches: seq<Batch>,
                           batch: seq<Request>, todo: seq<Request>, failed: seq<Request>)
  {
    && (forall r :: r in batch ==> r in s) && (forall r :: r in todo ==> r in s)
    && batches + Batches(todo, batch, fails) == Batches(s, [], fails)
    && FailedRev(todo, fails) + failed == FailedRev(s, fails)
  }

  predicate CutHere(b: seq<Request>, todo: seq<Request>) {
    b != [] && (todo == [] || b[|b| - 1].hctx != todo[0].hctx)
  }

  /** The collected requests, if any, are for the queue of the request that comes next. */
  predicate Collecting(batch: seq<Request>, todo: seq<Request>) {
    batch != [] ==> todo != [] && batch[|batch| - 1].hctx == todo[0].hctx
  }

  lemma ProgressStep(s: seq<Request>, fails: set<Request>, batches: seq<Batch>,
                     batch: seq<Request>, todo: seq<Request>, failed: seq<Request>)
    requires todo != [] && Progress(s, fails, batches, batch, todo, failed) && Collecting(batch, todo)
    ensures var b := if todo[0] in fails then batch else batch + [todo[0]];
      var f := if todo[0] in fails then [todo[0]] + failed else failed;
      (if CutHere(b, todo[1..]) then Progress(s, fails, batches + [Batch(todo[0].hctx, b)], [], todo[1..], f)
       else Progress(s, fails, batches, b, todo[1..], f) && Collecting(b, todo[1..]))
  {
    var rest := todo[1..];
    assert todo == [todo[0]] + rest;
    var b := if todo[0] in fails then batch else batch + [todo[0]];
    if CutHere(b, rest) {
      var cut := Batch(todo[0].hctx, b);
      assert batches + ([cut] + Batches(rest, [], fails)) == batches + [cut] + Batches(rest, [], fails);
    } else if b == [] {
      assert [] + Batches(rest, [], fails) == Batches(rest, [], fails);
    }
    assert FailedRev(rest, fails) + [todo[0]] + failed == FailedRev(rest, fails) + ([todo[0]] + failed);
  }

  /** The loop body of nvme_queue_rqs. */
  method Visit(list: Request?, requeue: Request?, prev: Request?, req: Request, next: Request?, fail: bool,
               ghost batch: seq<Request>, ghost todo: seq<Request>, ghost failed: seq<Request>)
    returns (list': Request?, requeue': Request?, prev': Request?, copied: seq<Request>, next': Request?,
             ghost batch': seq<Request>, ghost failed': seq<Request>)
    requires todo != [] && req == todo[0] && next == Head(todo[1..]) && Split(list, requeue, prev, batch, todo, failed)
    modifies Cell(prev), req
    ensures Split(list', requeue', prev', batch', todo[1..], failed')
    ensures next != null ==> next' == Head(todo[1..][1..])
    ensures failed' == if fail then [req] + failed else failed
    ensures var b := if fail then batch else batch + [req];
      if CutHere(b, todo[1..]) then copied == b && batch' == [] else copied == [] && batch' == b
  {
    var last: Request?;
    ghost var b;
    list', requeue', last, b, failed' := Take(list, requeue, prev, req, fail, batch, todo, failed);
    list', prev', copied, batch' := SubmitAtBoundary(list', requeue', last, next, b, todo[1..], failed');
    next' := null;
    if next != null {
      next' := next.rqNext;
    }
  }

  /** A round with its submission recorded: the work on s comes one request further. */
  method Round(list: Request?, requeue: Request?, prev: Request?, req: Request, next: Request?, batches: seq<Batch>,
               ghost s: seq<Request>, fails: set<Request>,
               ghost batch: seq<Request>, ghost todo: seq<Request>, ghost failed: seq<Request>)
    returns (list': Request?, requeue': Request?, prev': Request?, following: Request?, batches': seq<Batch>,
             ghost batch': seq<Request>, ghost failed': seq<Request>)
    requires todo != [] && req == todo[0] && next == Head(todo[1..]) && Split(list, requeue, prev, batch, todo, failed)
    requires Progress(s, fails, batches, batch, todo, failed) && Collecting(batch, todo)
    modifies Cell(prev), req
    ensures Split(list', requeue', prev', batch', todo[1..], failed')
    ensures next != null ==> following == Head(todo[1..][1..])
    ensures Progress(s, fails, batches', batch', todo[1..], failed') && Collecting(batch', todo[1..])
  {
    ProgressStep(s, fails, batches, batch, todo, failed);
    var copied;
    list', requeue', prev', copied, following, batch', failed' :=
      Visit(list, requeue, prev, req, next, req in fails, batch, todo, failed);
    batches' := batches;
    if copied != [] {
      batches' := batches + [Batch(req.hctx, copied)];
    }
  }

  /** nvme_queue_rqs. The list is not empty: rq_list_for_each_safe reads its first entry at once. */
  method QueueRqs(rqlist: Request?, ghost s: seq<Request>, fails: set<Request>)
    returns (rest: Request?, batches: seq<Batch>)
    requires s != [] && Linked(s, null) && Distinct(s) && rqlist == Head(s)
    modifies s
    ensures batches == Batches(s, [], fails)
    ensures rest == Head(FailedRev(s, fails)) && Linked(FailedRev(s, fails), null)
  {
    batches := [];
    var list: Request?, requeueList: Request?, prev: Request? := rqlist, null, null;
    var req: Request? := list;
    var next: Request? := req.rqNext;
    ghost var batch: seq<Request>, todo, failed: seq<Request> := [], s, [];
    while req != null
      invariant Split(list, requeueList, prev, batch, todo, failed)
      invariant req == Head(todo) && (todo != [] ==> next == Head(todo[1..]))
      invariant Progress(s, fails, batches, batch, todo, failed) && Collecting(batch, todo)
      decreases |todo|
    {
      assert req in todo && req in s && (prev != null ==> prev in batch && prev in s);
      var following;
      list, requeueList, prev, following, batches, batch, failed :=
        Round(list, requeueList, prev, req, next, batches, s, fails, batch, todo, failed);
      todo := todo[1..];
      req, next := next, following;
    }
    rest := requeueList;
  }
}
