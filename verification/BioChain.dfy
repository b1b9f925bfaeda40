/** A request with its linked bios, completed in place (daredevil/block/blk-mq.c:802-825, 932-1028). */
module BioChains {
  import B = Bios

  class Bio {
    var size: nat
    var sector: int
    var status: int
    var ended: nat
    const next: Bio?

    constructor (size: nat, sector: int, next: Bio?)
      ensures this.size == size && this.sector == sector && this.next == next && status == 0 && ended == 0
    {
      this.size, this.sector, this.next, this.status, this.ended := size, sector, next, 0, 0;
    }

    function Value(): B.Bio
      reads this
    {
      B.Bio(size, sector, status, ended)
    }

    /** req_bio_endio. */
    method EndBytes(bytes: nat, error: int, k: B.Kind, rqSector: int)
      requires bytes <= size
      modifies this
      ensures Value() == B.EndBytes(old(Value()), bytes, error, k, rqSector)
    {
      if error != 0 {
        status := error;
      } else if k.zoneAppend {
        if size != bytes {
          status := B.IO_ERROR;
        } else {
          sector := rqSector;
        }
      }
      size := size - bytes;
      if size == 0 && !k.flushSeq {
        ended := ended + 1;
      }
    }
  }

  /** The bios of a request, in order and none of them twice. */
  predicate Linked(s: seq<Bio>)
  {
    && (forall i :: 0 <= i < |s| ==> s[i].next == At(s, i + 1))
    && (forall i, j :: 0 <= i < j < |s| ==> s[i] != s[j])
  }

  function At(s: seq<Bio>, i: nat): Bio? { if i < |s| then s[i] else null }

  function Values(s: seq<Bio>): (vs: seq<B.Bio>)
    reads s
    ensures |vs| == |s| && forall i :: 0 <= i < |s| ==> vs[i] == s[i].Value()
  {
    seq(|s|, i requires 0 <= i < |s| reads s => s[i].Value())
  }

  /** One round of the walk over the bios c left, with n bytes to complete. */
  lemma FirstRound(c: seq<B.Bio>, n: nat, end: (B.Bio, nat) -> B.Bio)
    requires c != []
    ensures var bytes := B.Min(c[0].size, n);
      && B.Walk(c, n, end) == [end(c[0], bytes)] + (if n == bytes then c[1..] else B.Walk(c[1..], n - bytes, end))
      && B.Drops(c, n) == (if bytes == c[0].size then 1 else 0) + (if n == bytes then 0 else B.Drops(c[1..], n - bytes))
      && B.Total(c, n) == bytes + (if n == bytes then 0 else B.Total(c[1..], n - bytes))
  {
  }

  lemma SplitAt(v: seq<B.Bio>, w: seq<B.Bio>, i: nat, b: B.Bio)
    requires i < |v| && w == v[i := b]
    ensures v[i..][1..] == w[i + 1..] && v[i..][0] == v[i]
    ensures w == v[..i] + ([b] + v[i..][1..]) && w[..i + 1] == v[..i] + [b]
  {
  }

  /** The state of the walk over `was`: bio i is next, n bytes are left, `total` are done. */
  predicate Midway(was: seq<B.Bio>, v: seq<B.Bio>, i: nat, all: nat, n: nat, total: nat,
                   end: (B.Bio, nat) -> B.Bio)
  {
    && i <= |v|
    && B.Walk(was, all, end) == v[..i] + B.Walk(v[i..], n, end)
    && B.Drops(was, all) == i + B.Drops(v[i..], n)
    && B.Total(was, all) == total + B.Total(v[i..], n)
  }

  predicate Finished(was: seq<B.Bio>, v: seq<B.Bio>, i: nat, all: nat, total: nat,
                     end: (B.Bio, nat) -> B.Bio)
  {
    v == B.Walk(was, all, end) && i == B.Drops(was, all) && total == B.Total(was, all)
  }

  lemma Begin(was: seq<B.Bio>, all: nat, end: (B.Bio, nat) -> B.Bio)
    ensures Midway(was, was, 0, all, all, 0, end)
  {
    assert was[0..] == was;
  }

  /** The last round of the walk. */
  lemma Stop(was: seq<B.Bio>, v: seq<B.Bio>, w: seq<B.Bio>, i: nat, all: nat, n: nat, total: nat,
             end: (B.Bio, nat) -> B.Bio)
    requires Midway(was, v, i, all, n, total, end) && i < |v| && n <= v[i].size
    requires w == v[i := end(v[i], n)]
    ensures Finished(was, w, if n == v[i].size then i + 1 else i, all, total + n, end)
  {
    FirstRound(v[i..], n, end);
    SplitAt(v, w, i, end(v[i], n));
  }

  lemma WalkOn(c: seq<B.Bio>, n: nat, end: (B.Bio, nat) -> B.Bio)
    requires c != [] && n > c[0].size
    ensures B.Walk(c, n, end) == [end(c[0], c[0].size)] + B.Walk(c[1..], n - c[0].size, end)
  {
  }

  lemma Glue(front: seq<B.Bio>, longer: seq<B.Bio>, e: B.Bio, whole: seq<B.Bio>, rest: seq<B.Bio>)
    requires longer == front + [e] && whole == [e] + rest
    ensures front + whole == longer + rest
  {
  }

  /** Any other round. */
  lemma GoOnWalk(v: seq<B.Bio>, w: seq<B.Bio>, i: nat, n: nat, end: (B.Bio, nat) -> B.Bio)
    requires i < |v| && n > v[i].size && w == v[i := end(v[i], v[i].size)]
    ensures v[..i] + B.Walk(v[i..], n, end) == w[..i + 1] + B.Walk(w[i + 1..], n - v[i].size, end)
  {
    var e := end(v[i], v[i].size);
    WalkOn(v[i..], n, end);
    SplitAt(v, w, i, e);
    Glue(v[..i], w[..i + 1], e, B.Walk(v[i..], n, end), B.Walk(w[i + 1..], n - v[i].size, end));
  }

  lemma GoOnCounts(v: seq<B.Bio>, w: seq<B.Bio>, i: nat, n: nat, b: B.Bio)
    requires i < |v| && n > v[i].size && w == v[i := b]
    ensures B.Drops(v[i..], n) == 1 + B.Drops(w[i + 1..], n - v[i].size)
    ensures B.Total(v[i..], n) == v[i].size + B.Total(w[i + 1..], n - v[i].size)
  {
    FirstRound(v[i..], n, (c: B.Bio, m: nat) => c);
    SplitAt(v, w, i, b);
  }

  lemma GoOn(was: seq<B.Bio>, v: seq<B.Bio>, w: seq<B.Bio>, i: nat, all: nat, n: nat, total: nat,
             end: (B.Bio, nat) -> B.Bio)
    requires Midway(was, v, i, all, n, total, end) && i < |v| && n > v[i].size
    requires w == v[i := end(v[i], v[i].size)]
    ensures Midway(was, w, i + 1, all, n - v[i].size, total + v[i].size, end)
  {
    GoOnWalk(v, w, i, n, end);
    GoOnCounts(v, w, i, n, end(v[i], v[i].size));
  }

  lemma Advance(was: seq<B.Bio>, v: seq<B.Bio>, w: seq<B.Bio>, i: nat, all: nat, n: nat, total: nat, bytes: nat,
                end: (B.Bio, nat) -> B.Bio)
    requires Midway(was, v, i, all, n, total, end) && i < |v| && bytes == B.Min(v[i].size, n)
    requires w == v[i := end(v[i], bytes)]
    ensures n == bytes ==> Finished(was, w, if bytes == v[i].size then i + 1 else i, all, total + bytes, end)
    ensures n != bytes ==> bytes == v[i].size && Midway(was, w, i + 1, all, n - bytes, total + bytes, end)
  {
    if n == bytes { Stop(was, v, w, i, all, n, total, end); } else { GoOn(was, v, w, i, all, n, total, end); }
  }

  lemma RunOut(was: seq<B.Bio>, v: seq<B.Bio>, all: nat, n: nat, total: nat, end: (B.Bio, nat) -> B.Bio)
    requires Midway(was, v, |v|, all, n, total, end)
    ensures Finished(was, v, |v|, all, total, end)
  {
  }

  lemma UpdateSettles(dataLen: nat, rqSector: int, was: seq<B.Bio>, v: seq<B.Bio>, i: nat, all: nat, total: nat,
                      error: int, k: B.Kind, cur: B.Bio -> nat)
    requires Finished(was, v, i, all, total, B.Ender(error, k, rqSector)) && was != []
    ensures i <= |v|
    ensures B.Update(B.Req(was, dataLen, rqSector), all, error, k, cur) ==
            B.Settle(dataLen, rqSector, v[i..], total, k, cur)
  {
  }

  class Request {
    var bio: Bio?
    var dataLen: nat
    var sector: int
    const kind: B.Kind

    constructor (bio: Bio?, dataLen: nat, sector: int, kind: B.Kind)
      ensures this.bio == bio && this.dataLen == dataLen && this.sector == sector && this.kind == kind
    {
      this.bio, this.dataLen, this.sector, this.kind := bio, dataLen, sector, kind;
    }

    /** The body of the loop: complete what the first bio can take. */
    method EndFirst(n: nat, error: int, ghost s: seq<Bio>, ghost i: nat) returns (bytes: nat)
      requires Linked(s) && i < |s| && bio == s[i]
      modifies this`bio, s[i]
      ensures bytes == B.Min(old(Values(s))[i].size, n)
      ensures Values(s) == old(Values(s))[i := B.Ender(error, kind, sector)(old(Values(s))[i], bytes)]
      ensures bio == if bytes == old(Values(s))[i].size then At(s, i + 1) else s[i]
    {
      var b := bio;
      bytes := B.Min(b.size, n);
      if bytes == b.size {
        bio := b.next;
      }
      b.EndBytes(bytes, error, kind, sector);
    }

    /** A round of the loop keeps the walk on its way; i' is the first bio left after it. */
    method EndOne(ghost was: seq<B.Bio>, all: nat, n: nat, total: nat, error: int, ghost s: seq<Bio>, ghost i: nat)
      returns (bytes: nat, ghost i': nat)
      requires Linked(s) && i < |s| && bio == s[i]
      requires Midway(was, Values(s), i, all, n, total, B.Ender(error, kind, sector))
      modifies this`bio, s[i]
      ensures i <= i' <= |s| && bio == At(s, i') && bytes <= n
      ensures if n == bytes then Finished(was, Values(s), i', all, total + bytes, B.Ender(error, kind, sector))
              else i' > i && Midway(was, Values(s), i', all, n - bytes, total + bytes, B.Ender(error, kind, sector))
    {
      ghost var v, end := Values(s), B.Ender(error, kind, sector);
      bytes := EndFirst(n, error, s, i);
      ghost var w := Values(s);
      i' := if bytes == v[i].size then i + 1 else i;
      Advance(was, v, w, i, all, n, total, bytes, end);
    }

    /** The loop over the bios s of the request; i is the first one left. */
    method EndBios(nrBytes: nat, error: int, ghost s: seq<Bio>) returns (total: nat, ghost i: nat)
      requires Linked(s) && bio == At(s, 0)
      modifies this`bio, s
      ensures Finished(old(Values(s)), Values(s), i, nrBytes, total, B.Ender(error, kind, sector))
      ensures i <= |s| && bio == At(s, i)
    {
      ghost var was := Values(s);
      var n: nat := nrBytes;
      i, total := 0, 0;
      Begin(was, nrBytes, B.Ender(error, kind, sector));
      while bio != null
        invariant i <= |s| && bio == At(s, i)
        invariant Midway(was, Values(s), i, nrBytes, n, total, B.Ender(error, kind, sector))
        decreases |s| - i
      {
        var bytes, next := EndOne(was, nrBytes, n, total, error, s, i);
        total := total + bytes;
        n := n - bytes;
        i := next;
        if n == 0 {
          return;
        }
      }
      RunOut(was, Values(s), nrBytes, n, total, B.Ender(error, kind, sector));
    }

    /** The request as a value, its bios being s. */
    function Value(s: seq<Bio>): B.Req
      reads this, s
    {
      B.Req(Values(s), dataLen, sector)
    }

    /** What follows the loop, with the bios s left. */
    method Settle(total: nat, cur: B.Bio -> nat, ghost s: seq<Bio>) returns (more: bool)
      requires bio == At(s, 0)
      modifies this`dataLen, this`sector
      ensures (Value(s), more) == B.Settle(old(dataLen), old(sector), Values(s), total, kind, cur)
    {
      if bio == null {
        dataLen := 0;
        return false;
      }
      dataLen := B.Unsigned(dataLen - total);
      if !kind.passthrough {
        sector := sector + total / 512;
      }
      if !kind.special && dataLen < cur(bio.Value()) {
        dataLen := cur(bio.Value());
      }
      more := true;
    }

    /** blk_update_request; cur gives the size of a bio's first segment. The first `gone` bios leave the
        request; nobody else's bios change. */
    method Update(nrBytes: nat, error: int, cur: B.Bio -> nat, ghost s: seq<Bio>) returns (more: bool, ghost gone: nat)
      requires Linked(s) && bio == At(s, 0)
      modifies this, s
      ensures gone == B.Drops(old(Values(s)), nrBytes) <= |s| && bio == At(s, gone)
      ensures (Value(s[gone..]), more) == B.Update(old(Value(s)), nrBytes, error, kind, cur)
      ensures s != [] ==> Values(s) == B.Walk(old(Values(s)), nrBytes, B.Ender(error, kind, old(sector)))
    {
      if bio == null {
        return false, 0;
      }
      ghost var was := Values(s);
      var total;
      total, gone := EndBios(nrBytes, error, s);
      UpdateSettles(dataLen, sector, was, Values(s), gone, nrBytes, total, error, kind, cur);
      assert Values(s[gone..]) == Values(s)[gone..];
      more := Settle(total, cur, s[gone..]);
    }
  }
}
