/** The plug updated in place (daredevil/block/blk-mq.c:1336-1364, 2935-2968, 2970-3039). */
module PlugLists {
  import opened Seqs
  import opened Plugs

  lemma NextRound(out: seq<Batch>, l: seq<Req>)
    requires l != []
    ensures var rest := Others(l, KeyOf(l[0]));
      |rest| < |l| && out + Rounds(l) == out + [FirstBatch(l)] + Rounds(rest)
  {
    RoundShrinks(l);
  }

  class Plug {
    const limits: Limits
    var mqList: seq<Req>
    var rqCount: nat
    var multipleQueues: bool
    var hasElevator: bool
    /** The batches handed over and the requests the driver took directly. */
    var out: seq<Batch>
    var direct: multiset<Req>

    function Value(): State
      reads this
    {
      State(mqList, rqCount, multipleQueues, hasElevator, out, direct)
    }

    constructor (limits: Limits)
      ensures Value() == State([], 0, false, false, [], multiset{}) && Inv(Value(), limits)
    {
      this.limits := limits;
      mqList, rqCount, multipleQueues, hasElevator, out, direct := [], 0, false, false, [], multiset{};
    }

    method Pop() returns (r: Req)
      requires mqList != []
      modifies this`mqList
      ensures r == old(mqList)[0] && mqList == old(mqList)[1..]
    {
      r := mqList[0];
      mqList := mqList[1..];
    }

    /** blk_mq_dispatch_plug_list: one round. */
    method DispatchPlugList()
      requires mqList != []
      modifies this`mqList, this`out
      ensures out == old(out) + [FirstBatch(old(mqList))]
      ensures mqList == Others(old(mqList), KeyOf(old(mqList)[0]))
    {
      ghost var l := mqList;
      ghost var i := 0;
      var key := KeyOf(mqList[0]);
      var requeue, list := [], [];
      while mqList != []
        invariant 0 <= i <= |l| && mqList == l[i..] && out == old(out)
        invariant requeue == Others(l[..i], key) && list == Reverse(Same(l[..i], key))
        decreases |mqList|
      {
        var rq := Pop();
        assert l[..i + 1] == l[..i] + [rq];
        SnocSplit(l[..i], rq, key);
        Snoc(Same(l[..i], key), rq);
        i := i + 1;
        if key != KeyOf(rq) {
          requeue := requeue + [rq];
          continue;
        }
        list := [rq] + list;
      }
      assert l[..i] == l;
      mqList := requeue;
      out := out + [Batch(key, list)];
    }

    /** The final loop of blk_mq_flush_plug_list. */
    method DispatchAll()
      requires mqList != []
      modifies this`mqList, this`out
      ensures mqList == [] && out == old(out) + Rounds(old(mqList))
    {
      NextRound(out, mqList);
      DispatchPlugList();
      while mqList != []
        invariant out + Rounds(mqList) == old(out) + Rounds(old(mqList))
        decreases |mqList|
      {
        NextRound(out, mqList);
        DispatchPlugList();
      }
    }

    /** blk_mq_flush_plug_list; left is what the driver leaves if the list is issued directly. */
    method FlushPlugList(fromSchedule: bool, left: seq<Req>)
      requires rqCount > 0 ==> mqList != []
      modifies this`mqList, this`rqCount, this`out, this`direct
      ensures Value() == Flush(old(Value()), fromSchedule, left)
    {
      if rqCount == 0 {
        return;
      }
      rqCount := 0;
      if !multipleQueues && !hasElevator && !fromSchedule {
        direct := direct + (multiset(mqList) - multiset(left));
        mqList := left;
        if mqList == [] {
          return;
        }
      }
      DispatchAll();
    }

    /** blk_add_rq_to_plug. */
    method AddRqToPlug(rq: Req, left: seq<Req>)
      requires rqCount > 0 ==> mqList != []
      modifies this
      ensures Value() == Add(old(Value()), rq, limits, left)
    {
      var last := if mqList != [] then [mqList[0]] else [];
      if rqCount > 0 {
        var max := if multipleQueues then 2 * limits.count else limits.count;
        if rqCount >= max || (!rq.nomerges && last[0].bytes >= limits.bytes) {
          FlushPlugList(false, left);
          last := [];
        }
      }
      PushRq(rq, last != [] && last[0].q != rq.q);
    }

    method PushRq(rq: Req, differs: bool)
      modifies this
      ensures Value() == Push(old(Value()), rq, differs)
    {
      if !multipleQueues && differs {
        multipleQueues := true;
      }
      if !hasElevator && rq.elv {
        hasElevator := true;
      }
      mqList := [rq] + mqList;
      rqCount := rqCount + 1;
    }
  }
}
