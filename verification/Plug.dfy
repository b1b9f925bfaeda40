/**
 The plug list (daredevil/block/blk-mq.c:1336-1364, 2935-2968, 2970-3039). Requests are pushed at the
 front. A flush hands them over in rounds, one pair of hardware and software queue at a time. What the
 driver leaves of a list issued directly is arbitrary.
*/
module Plugs {
  import opened Seqs

  datatype Req = Req(id: nat, hctx: nat, ctx: nat, q: nat, bytes: nat, elv: bool, nomerges: bool)

  datatype Key = Key(hctx: nat, ctx: nat)

  function KeyOf(r: Req): Key { Key(r.hctx, r.ctx) }

  datatype Batch = Batch(key: Key, reqs: seq<Req>)

  /** The requests of one key, and the others, in list order. */
  function Same(s: seq<Req>, k: Key): (r: seq<Req>)
    ensures |r| <= |s|
  {
    if s == [] then []
    else Same(s[..|s| - 1], k) + if KeyOf(s[|s| - 1]) == k then [s[|s| - 1]] else []
  }

  function Others(s: seq<Req>, k: Key): (r: seq<Req>)
    ensures |r| <= |s|
  {
    if s == [] then []
    else Others(s[..|s| - 1], k) + if KeyOf(s[|s| - 1]) == k then [] else [s[|s| - 1]]
  }

  function Keys(s: seq<Req>): set<Key> { set r | r in s :: KeyOf(r) }

  // ----- One more request at the end -----

  lemma Snoc(s: seq<Req>, x: Req)
    ensures (s + [x])[..|s|] == s && Reverse(s + [x]) == [x] + Reverse(s)
    ensures multiset(s + [x]) == multiset(s) + multiset{x}
  {
    assert (s + [x])[..|s|] == s;
  }

  lemma SnocSplit(s: seq<Req>, x: Req, k: Key)
    ensures Same(s + [x], k) == if KeyOf(x) == k then Same(s, k) + [x] else Same(s, k)
    ensures Others(s + [x], k) == if KeyOf(x) == k then Others(s, k) else Others(s, k) + [x]
  {
    assert (s + [x])[..|s|] == s;
  }

  lemma Front(s: seq<Req>)
    requires s != []
    ensures s == s[..|s| - 1] + [s[|s| - 1]]
  {
  }

  // ----- Splitting a list by key -----

  lemma {:induction false} SameMembers(s: seq<Req>, k: Key, r: Req)
    ensures r in Same(s, k) <==> r in s && KeyOf(r) == k
    ensures r in Others(s, k) <==> r in s && KeyOf(r) != k
  {
    if s != [] {
      SameMembers(s[..|s| - 1], k, r);
      assert s == s[..|s| - 1] + [s[|s| - 1]];
    }
  }

  lemma {:induction false} SplitKeeps(s: seq<Req>, k: Key)
    ensures multiset(Same(s, k)) + multiset(Others(s, k)) == multiset(s)
    ensures |Same(s, k)| + |Others(s, k)| == |s|
  {
    if s != [] {
      var (f, x) := (s[..|s| - 1], s[|s| - 1]);
      SplitKeeps(f, k);
      Front(s);
      SnocSplit(f, x, k);
      Snoc(f, x);
      Snoc(Same(f, k), x);
      Snoc(Others(f, k), x);
    }
  }

  /** Splitting off one key does not touch another. */
  lemma {:induction false} SameOfOthers(s: seq<Req>, j: Key, k: Key)
    requires j != k
    ensures Same(Others(s, j), k) == Same(s, k)
  {
    if s != [] {
      var (f, x) := (s[..|s| - 1], s[|s| - 1]);
      SameOfOthers(f, j, k);
      Front(s);
      SnocSplit(f, x, j);
      SnocSplit(f, x, k);
      SnocSplit(Others(f, j), x, k);
    }
  }

  lemma {:induction false} SamePrepend(x: Req, s: seq<Req>, k: Key)
    ensures Same([x] + s, k) == (if KeyOf(x) == k then [x] else []) + Same(s, k)
  {
    if s == [] {
      assert [x] + s == [x];
      assert [x][..0] == [];
    } else {
      var n := |s| - 1;
      SamePrepend(x, s[..n], k);
      assert ([x] + s)[..n + 1] == [x] + s[..n];
    }
  }

  lemma {:induction false} ReverseOfSame(s: seq<Req>, k: Key)
    ensures Reverse(Same(s, k)) == Same(Reverse(s), k)
  {
    if s != [] {
      var (f, x) := (s[..|s| - 1], s[|s| - 1]);
      ReverseOfSame(f, k);
      SamePrepend(x, Reverse(f), k);
      Front(s);
      SnocSplit(f, x, k);
      Snoc(Same(f, k), x);
    }
  }

  // ----- Rounds -----

  /** One round takes the key of the first request; the batch is built by pushing at the front. */
  function FirstBatch(s: seq<Req>): Batch
    requires s != []
  {
    Batch(KeyOf(s[0]), Reverse(Same(s, KeyOf(s[0]))))
  }

  lemma RoundShrinks(s: seq<Req>)
    requires s != []
    ensures |Others(s, KeyOf(s[0]))| < |s|
  {
    SplitKeeps(s, KeyOf(s[0]));
    SameMembers(s, KeyOf(s[0]), s[0]);
  }

  function Rounds(s: seq<Req>): seq<Batch>
    decreases |s|
  {
    if s == [] then []
    else
      RoundShrinks(s);
      [FirstBatch(s)] + Rounds(Others(s, KeyOf(s[0])))
  }

  function Handed(bs: seq<Batch>): multiset<Req> {
    if bs == [] then multiset{} else Handed(bs[..|bs| - 1]) + multiset(bs[|bs| - 1].reqs)
  }

  lemma {:induction false} HandedAppend(a: seq<Batch>, b: seq<Batch>)
    ensures Handed(a + b) == Handed(a) + Handed(b)
  {
    if b == [] {
      assert a + b == a;
    } else {
      assert (a + b)[..|a + b| - 1] == a + b[..|b| - 1];
      HandedAppend(a, b[..|b| - 1]);
    }
  }

  lemma KeysOfOthers(s: seq<Req>, k: Key)
    ensures Keys(Others(s, k)) == Keys(s) - {k}
  {
    forall r | r in s ensures r in Others(s, k) <==> KeyOf(r) != k { SameMembers(s, k, r); }
    forall r | r in Others(s, k) ensures r in s && KeyOf(r) != k { SameMembers(s, k, r); }
  }

  /** The final loop is a stable group-by. It makes as many rounds as there are keys ... */
  lemma {:induction false} RoundsPerKey(s: seq<Req>)
    ensures |Rounds(s)| == |Keys(s)|
    decreases |s|
  {
    if s != [] {
      RoundShrinks(s);
      RoundsPerKey(Others(s, KeyOf(s[0])));
      KeysOfOthers(s, KeyOf(s[0]));
      assert KeyOf(s[0]) in Keys(s);
    }
  }

  /** ... each batch holds the requests of its key in the order of submission, oldest first ... */
  lemma {:induction false} BatchInOrder(s: seq<Req>, i: nat)
    requires i < |Rounds(s)|
    ensures var b := Rounds(s)[i]; b.key in Keys(s) && b.reqs == Same(Reverse(s), b.key)
    decreases |s|
  {
    var k := KeyOf(s[0]);
    RoundShrinks(s);
    ReverseOfSame(s, k);
    assert k in Keys(s);
    if i > 0 {
      var t := Others(s, k);
      BatchInOrder(t, i - 1);
      KeysOfOthers(s, k);
      BatchOfRest(s, t, k, Rounds(t)[i - 1].key);
    }
  }

  lemma BatchOfRest(s: seq<Req>, t: seq<Req>, j: Key, k: Key)
    requires t == Others(s, j) && j != k
    ensures Same(Reverse(t), k) == Same(Reverse(s), k)
  {
    ReverseOfSame(t, k);
    ReverseOfSame(s, k);
    SameOfOthers(s, j, k);
  }

  lemma LaterRounds(s: seq<Req>, rs: seq<Batch>)
    requires rs == Rounds(s) && rs != []
    ensures var rest := Others(s, KeyOf(s[0])); |rest| < |s| && rs[1..] == Rounds(rest) && rs[0] == FirstBatch(s)
  {
    RoundShrinks(s);
  }

  /** The key of the first round does not come up again ... */
  lemma KeyGone(s: seq<Req>, rs: seq<Batch>, j: nat)
    requires rs == Rounds(s) && 0 < j < |rs|
    ensures rs[j].key != rs[0].key
  {
    LaterRounds(s, rs);
    BatchInOrder(Others(s, KeyOf(s[0])), j - 1);
    KeysOfOthers(s, KeyOf(s[0]));
  }

  /** ... and no other key comes up twice. */
  lemma {:induction false} KeysOnce(s: seq<Req>, rs: seq<Batch>, i: nat, j: nat)
    requires rs == Rounds(s) && i < j < |rs|
    ensures rs[i].key != rs[j].key
    decreases |rs|
  {
    if i == 0 {
      KeyGone(s, rs, j);
    } else {
      LaterRounds(s, rs);
      KeysOnce(Others(s, KeyOf(s[0])), rs[1..], i - 1, j - 1);
    }
  }

  /** The rounds lose and double nothing. */
  lemma {:induction false} RoundsKeep(s: seq<Req>)
    ensures Handed(Rounds(s)) == multiset(s)
    decreases |s|
  {
    if s != [] {
      var k := KeyOf(s[0]);
      RoundShrinks(s);
      RoundsKeep(Others(s, k));
      SplitKeeps(s, k);
      ReverseKeeps(Same(s, k));
      HandedAppend([FirstBatch(s)], Rounds(Others(s, k)));
      assert [FirstBatch(s)][..0] == [];
    }
  }

  // ----- The plug -----

  /** The limits on the number of requests and on the size of the last one. */
  datatype Limits = Limits(count: nat, bytes: nat)

  /** out is what was handed over in batches, direct what the driver took directly. */
  datatype State = State(list: seq<Req>, count: nat, multiple: bool, elevator: bool,
                         out: seq<Batch>, direct: multiset<Req>)

  /** blk_plug_max_rq_count. */
  function MaxCount(s: State, m: Limits): nat { if s.multiple then 2 * m.count else m.count }

  /** What the driver leaves when the whole list is issued directly. */
  predicate Leaves(s: State, left: seq<Req>) { multiset(left) <= multiset(s.list) }

  predicate Direct(s: State, fromSchedule: bool) { !s.multiple && !s.elevator && !fromSchedule }

  /** blk_mq_flush_plug_list. */
  function Flush(s: State, fromSchedule: bool, left: seq<Req>): State {
    if s.count == 0 then s
    else if Direct(s, fromSchedule) then
      s.(count := 0, list := [], out := s.out + Rounds(left), direct := s.direct + (multiset(s.list) - multiset(left)))
    else s.(count := 0, list := [], out := s.out + Rounds(s.list))
  }

  predicate Full(s: State, r: Req, m: Limits)
    requires s.count > 0 ==> s.list != []
  {
    s.count > 0 && (s.count >= MaxCount(s, m) || (!r.nomerges && s.list[0].bytes >= m.bytes))
  }

  /** blk_add_rq_to_plug. */
  function Add(s: State, r: Req, m: Limits, left: seq<Req>): State
    requires s.count > 0 ==> s.list != []
  {
    var t := if Full(s, r, m) then Flush(s, false, left) else s;
    var differs := !Full(s, r, m) && s.list != [] && s.list[0].q != r.q;
    Push(t, r, differs)
  }

  function Push(t: State, r: Req, differs: bool): State {
    t.(list := [r] + t.list, count := t.count + 1, multiple := t.multiple || differs, elevator := t.elevator || r.elv)
  }

  datatype Event = AddRq(r: Req, left: seq<Req>) | FlushAll(fromSchedule: bool, left: seq<Req>)

  predicate Possible(s: State, e: Event) { Leaves(s, e.left) }

  function Apply(s: State, e: Event, m: Limits): State
    requires s.count > 0 ==> s.list != []
  {
    match e
    case AddRq(r, left) => Add(s, r, m, left)
    case FlushAll(fs, left) => Flush(s, fs, left)
  }

  /** The request in place i could be pushed upon by the one before it in the list. */
  predicate MayFollow(l: seq<Req>, i: nat, m: Limits)
    requires 0 < i < |l|
  {
    l[i].bytes < m.bytes || l[i - 1].nomerges
  }

  /** The counter counts the list and obeys the limit; nothing that may merge is pushed behind a request
      that is large enough; without multiple_queues all requests go to one request queue, as the direct
      path takes for granted; without has_elevator none has a scheduler. */
  predicate Inv(s: State, m: Limits) {
    && s.count == |s.list| && (|s.list| <= MaxCount(s, m) || |s.list| <= 1)
    && (forall i :: 0 < i < |s.list| ==> MayFollow(s.list, i, m))
    && (!s.multiple ==> forall i, j :: 0 <= i < j < |s.list| ==> s.list[i].q == s.list[j].q)
    && (!s.elevator ==> forall i :: 0 <= i < |s.list| ==> !s.list[i].elv)
  }

  /** All requests the plug has seen. */
  function Seen(s: State): multiset<Req> { multiset(s.list) + s.direct + Handed(s.out) }

  lemma FlushKeeps(s: State, m: Limits, fromSchedule: bool, left: seq<Req>)
    requires Inv(s, m) && Leaves(s, left)
    ensures var t := Flush(s, fromSchedule, left);
      Inv(t, m) && Seen(t) == Seen(s) && t.list == []
  {
    var t := Flush(s, fromSchedule, left);
    if s.count != 0 {
      var rest := if Direct(s, fromSchedule) then left else s.list;
      FlushHands(s.out, rest);
      Moved(multiset(s.list), multiset(rest), s.direct, Handed(s.out));
      assert Handed(t.out) == Handed(s.out) + multiset(rest);
      assert t.direct == s.direct + (multiset(s.list) - multiset(rest));
    }
  }

  lemma FlushHands(out: seq<Batch>, rest: seq<Req>)
    ensures Handed(out + Rounds(rest)) == Handed(out) + multiset(rest)
  {
    HandedAppend(out, Rounds(rest));
    RoundsKeep(rest);
  }

  lemma Moved(l: multiset<Req>, rest: multiset<Req>, direct: multiset<Req>, handed: multiset<Req>)
    requires rest <= l
    ensures multiset{} + (direct + (l - rest)) + (handed + rest) == l + direct + handed
  {
  }

  lemma PushKeeps(t: State, m: Limits, r: Req, differs: bool)
    requires Inv(t, m) && (t.list == [] || |t.list| < MaxCount(t, m))
    requires t.list != [] && t.list[0].q != r.q ==> differs
    requires t.list != [] ==> t.list[0].bytes < m.bytes || r.nomerges
    ensures Inv(Push(t, r, differs), m) && Seen(Push(t, r, differs)) == Seen(t) + multiset{r}
  {
    Prepend(r, t.list);
    var l := [r] + t.list;
    forall i | 0 < i < |l| ensures MayFollow(l, i, m) {
      assert i > 1 ==> MayFollow(t.list, i - 1, m);
    }
    if !t.multiple && !differs {
      forall i, j | 0 <= i < j < |l| ensures l[i].q == l[j].q {
        assert l[j] == t.list[j - 1] && (i > 0 ==> l[i] == t.list[i - 1]);
      }
    }
  }

  lemma Prepend(r: Req, l: seq<Req>)
    ensures multiset([r] + l) == multiset(l) + multiset{r}
  {
  }

  lemma AddKeeps(s: State, m: Limits, r: Req, left: seq<Req>)
    requires Inv(s, m) && Leaves(s, left)
    ensures var t := Add(s, r, m, left);
      Inv(t, m) && Seen(t) == Seen(s) + multiset{r}
  {
    if Full(s, r, m) {
      FlushKeeps(s, m, false, left);
      PushKeeps(Flush(s, false, left), m, r, false);
    } else {
      PushKeeps(s, m, r, s.list != [] && s.list[0].q != r.q);
    }
  }

  /** The driver is given a list directly if and only if there is one, a scheduler does not flush it, and
      neither flag was raised; then it goes to one request queue and has no scheduler. */
  lemma DirectIsSafe(s: State, m: Limits, fromSchedule: bool)
    requires Inv(s, m)
    ensures var given := Flush(s, fromSchedule, []).direct - s.direct;
      && (given != multiset{} <==> s.list != [] && !fromSchedule && !s.multiple && !s.elevator)
      && (given != multiset{} ==> given == multiset(s.list))
      && (forall r, r' | r in given && r' in given :: r.q == r'.q && !r.elv)
  {
    var given := Flush(s, fromSchedule, []).direct - s.direct;
    assert s.list != [] ==> s.list[0] in multiset(s.list);
    forall r, r' | r in given && r' in given ensures r.q == r'.q && !r.elv {
      assert given == multiset(s.list);
      var i :| 0 <= i < |s.list| && s.list[i] == r;
      var j :| 0 <= j < |s.list| && s.list[j] == r';
      assert i < j ==> s.list[i].q == s.list[j].q;
      assert j < i ==> s.list[j].q == s.list[i].q;
    }
  }

  /** A plug with room keeps what it holds when a request comes, and a full one, or one whose last request
      is too large to merge with, holds that request alone. */
  lemma AddKeepsListIff(s: State, m: Limits, r: Req, left: seq<Req>)
    requires Inv(s, m) && Leaves(s, left) && s.list != []
    ensures var t := Add(s, r, m, left);
      && (t.list == [r] + s.list && t.out == s.out && t.direct == s.direct
          <==> |s.list| < MaxCount(s, m) && (r.nomerges || s.list[0].bytes < m.bytes))
      && (t.list == [r] + s.list || t.list == [r])
  {
    assert Full(s, r, m) ==> |Add(s, r, m, left).list| == 1;
  }

  function New(e: Event): multiset<Req> { if e.AddRq? then multiset{e.r} else multiset{} }

  /** A run: its final state, whether every event was possible, and all requests added. */
  function Run(s: State, es: seq<Event>, m: Limits): (State, bool)
    decreases |es|
  {
    if es == [] then (s, true)
    else if Possible(s, es[0]) && (s.count > 0 ==> s.list != []) then Run(Apply(s, es[0], m), es[1..], m)
    else (s, false)
  }

  function Added(es: seq<Event>): multiset<Req>
    decreases |es|
  {
    if es == [] then multiset{} else New(es[0]) + Added(es[1..])
  }

  /** Over every run of adds and flushes each request added is in exactly one place: on the plug list,
      issued directly, or handed over; and the plug stays within its limits. */
  lemma {:induction false} RunsKeepRequests(s: State, es: seq<Event>, m: Limits)
    requires Inv(s, m) && Run(s, es, m).1
    ensures var t := Run(s, es, m).0; Inv(t, m) && Seen(t) == Seen(s) + Added(es)
    decreases |es|
  {
    if es != [] {
      match es[0] {
        case AddRq(r, left) => AddKeeps(s, m, r, left);
        case FlushAll(fs, left) => FlushKeeps(s, m, fs, left);
      }
      RunsKeepRequests(Apply(s, es[0], m), es[1..], m);
    }
  }

  ghost predicate SomeElv(rs: multiset<Req>) { exists r | r in rs :: r.elv }

  ghost predicate SeveralQueues(rs: multiset<Req>) { exists r, r' | r in rs && r' in rs :: r.q != r'.q }

  lemma SomeOfBoth(a: multiset<Req>, b: multiset<Req>)
    ensures SomeElv(a + b) <==> SomeElv(a) || SomeElv(b)
  {
  }

  lemma SeveralOfMore(a: multiset<Req>, b: multiset<Req>)
    requires a <= b
    ensures SeveralQueues(a) ==> SeveralQueues(b)
  {
  }

  /** What one event does to the flags. */
  lemma FlagsAfter(s: State, e: Event, m: Limits)
    requires Inv(s, m) && Possible(s, e)
    ensures var (t, held) := (Apply(s, e, m), multiset(s.list) + New(e));
      && (t.elevator <==> s.elevator || SomeElv(New(e))) && multiset(t.list) <= held
      && (s.multiple ==> t.multiple) && (t.multiple ==> s.multiple || SeveralQueues(held))
  {
    match e
    case FlushAll(_, _) =>
    case AddRq(r, left) =>
      var held := multiset(s.list) + New(e);
      assert r in New(e) && r in held;
      assert s.list != [] ==> s.list[0] in held;
      Prepend(r, s.list);
      assert [r] + [] == [r];
  }

  /** The flags are never raised without a cause: a scheduler only by a request that has one, several
      queues only by two requests of different queues; and neither is lowered. */
  lemma {:induction false} FlagsHaveCauses(s: State, es: seq<Event>, m: Limits)
    requires Inv(s, m) && Run(s, es, m).1
    ensures var (t, added) := (Run(s, es, m).0, Added(es));
      && (t.elevator <==> s.elevator || SomeElv(added))
      && (s.multiple ==> t.multiple) && (t.multiple ==> s.multiple || SeveralQueues(multiset(s.list) + added))
    decreases |es|
  {
    if es != [] {
      var n := Apply(s, es[0], m);
      FlagsAfter(s, es[0], m);
      match es[0] {
        case AddRq(r, left) => AddKeeps(s, m, r, left);
        case FlushAll(fs, left) => FlushKeeps(s, m, fs, left);
      }
      FlagsHaveCauses(n, es[1..], m);
      SomeOfBoth(New(es[0]), Added(es[1..]));
      SeveralOfMore(multiset(n.list) + Added(es[1..]), multiset(s.list) + Added(es));
      SeveralOfMore(multiset(s.list) + New(es[0]), multiset(s.list) + Added(es));
    }
  }
}
