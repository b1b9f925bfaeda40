/**
 Completing part of a request (daredevil/block/blk-mq.c:802-825, 907-1028): a walk along the request's
 bios that shrinks them, drops those that are done, and keeps the byte count and the sector.
*/
module Bios {

  /** A bio: bytes left, start sector, status (0 is success), and how often it was ended. */
  datatype Bio = Bio(size: nat, sector: int, status: int, ended: nat)

  /** What the request tells about itself. */
  datatype Kind = Kind(flushSeq: bool, zoneAppend: bool, passthrough: bool, special: bool)

  /** BLK_STS_IOERR. */
  const IO_ERROR: int := 10

  function Min(a: nat, b: nat): nat { if a < b then a else b }

  /** req_bio_endio: a bio in a flush sequence is not ended. */
  function EndBytes(b: Bio, bytes: nat, error: int, k: Kind, sector: int): Bio {
    var c :=
      if error != 0 then b.(status := error)
      else if k.zoneAppend then (if b.size != bytes then b.(status := IO_ERROR) else b.(sector := sector))
      else b;
    var d := c.(size := c.size - Min(c.size, bytes));
    if d.size == 0 && !k.flushSeq then d.(ended := d.ended + 1) else d
  }

  /** The same for one request: what becomes of a bio that completes a number of bytes. */
  function Ender(error: int, k: Kind, sector: int): (Bio, nat) -> Bio {
    (b: Bio, bytes: nat) => EndBytes(b, bytes, error, k, sector)
  }

  /** The loop over the bios: all of them afterwards. It stops as soon as no bytes are left. */
  function Walk(c: seq<Bio>, n: nat, end: (Bio, nat) -> Bio): (r: seq<Bio>)
    ensures |r| == |c|
    decreases |c|
  {
    if c == [] then []
    else
      var bytes := Min(c[0].size, n);
      [end(c[0], bytes)] +
      if n == bytes then c[1..] else Walk(c[1..], n - bytes, end)
  }

  /** How many bios the loop drops from the request. */
  function Drops(c: seq<Bio>, n: nat): (d: nat)
    ensures d <= |c|
    decreases |c|
  {
    if c == [] || n < c[0].size then 0
    else if n == c[0].size then 1
    else 1 + Drops(c[1..], n - c[0].size)
  }

  /** How many bytes the loop completes. */
  function Total(c: seq<Bio>, n: nat): (t: nat)
    ensures t <= n
    decreases |c|
  {
    if c == [] then 0
    else
      var bytes := Min(c[0].size, n);
      if n == bytes then n else bytes + Total(c[1..], n - bytes)
  }

  function Sum(c: seq<Bio>): nat { if c == [] then 0 else c[0].size + Sum(c[1..]) }

  /** An unsigned int has 32 bits. */
  function Unsigned(x: int): nat { if 0 <= x < 0x1_0000_0000 then x else x % 0x1_0000_0000 }

  /** The request: bios left, __data_len, __sector. */
  datatype Req = Req(bios: seq<Bio>, dataLen: nat, sector: int)

  /** bio_cur_bytes: the size of a bio's first segment, given as `cur`, is never more than the bio has left. */
  ghost predicate Segments(cur: Bio -> nat) { forall b: Bio :: cur(b) <= b.size }

  /** What the rest of blk_update_request leaves and returns once `total` bytes are done and the bios
      `left` remain. */
  function Settle(dataLen: nat, sector: int, left: seq<Bio>, total: nat, k: Kind, cur: Bio -> nat): (Req, bool) {
    if left == [] then (Req([], 0, sector), false)
    else
      var len := Unsigned(dataLen - total);
      (Req(left, if !k.special && len < cur(left[0]) then cur(left[0]) else len,
           if k.passthrough then sector else sector + total / 512), true)
  }

  /** blk_update_request. */
  function Update(r: Req, n: nat, error: int, k: Kind, cur: Bio -> nat): (Req, bool) {
    if r.bios == [] then (r, false)
    else
      var left := Walk(r.bios, n, Ender(error, k, r.sector))[Drops(r.bios, n)..];
      Settle(r.dataLen, r.sector, left, Total(r.bios, n), k, cur)
  }

  // ----- Bytes -----

  lemma {:induction false} DropsAll(c: seq<Bio>, n: nat, error: int, k: Kind, sector: int)
    ensures Total(c, n) == Min(n, Sum(c))
    ensures Sum(Walk(c, n, Ender(error, k, sector))[Drops(c, n)..]) == Sum(c) - Total(c, n)
    decreases |c|
  {
    if c != [] {
      var bytes := Min(c[0].size, n);
      var w := Walk(c, n, Ender(error, k, sector));
      if n == bytes {
        assert w[1..] == c[1..];
        if Drops(c, n) == 0 { assert w[0..] == w; }
      } else {
        DropsAll(c[1..], n - bytes, error, k, sector);
        var v := Walk(c[1..], n - bytes, Ender(error, k, sector));
        assert w[Drops(c, n)..] == v[Drops(c[1..], n - bytes)..];
      }
    }
  }

  /** A request whose length is the sum of its bios keeps it so, loses exactly the bytes completed, is
      never found botched, and has nothing left when it says so. Its sector moves on by the whole sectors
      completed if more is left, unless it is a passthrough request. */
  lemma UpdateKeepsBytes(r: Req, n: nat, error: int, k: Kind, cur: Bio -> nat)
    requires r.dataLen == Sum(r.bios) < 0x1_0000_0000 && Segments(cur)
    ensures var (t, more) := Update(r, n, error, k, cur);
      && t.dataLen == Sum(t.bios) && t.dataLen == r.dataLen - Min(n, r.dataLen)
      && (more <==> t.bios != [])
      && t.sector == (if more && !k.passthrough then r.sector + Min(n, r.dataLen) / 512 else r.sector)
  {
    DropsAll(r.bios, n, error, k, r.sector);
  }

  /** Whatever the length was, a request without special payload that has more never has less than its
      first segment; else the length just loses the bytes completed. */
  lemma LengthCoversSegment(r: Req, n: nat, error: int, k: Kind, cur: Bio -> nat)
    requires r.bios != [] && Update(r, n, error, k, cur).1
    ensures var t, len := Update(r, n, error, k, cur).0, Unsigned(r.dataLen - Total(r.bios, n));
      && t.bios != [] && (!k.special ==> t.dataLen >= cur(t.bios[0]))
      && (k.special || len >= cur(t.bios[0]) ==> t.dataLen == len)
  {
  }

  /** The promise that passing all remaining bytes leaves nothing holds exactly if the request has at
      most one bio or its last bio is not empty; else the empty tail stays. */
  lemma {:induction false} WholeCompletionIff(c: seq<Bio>)
    ensures Drops(c, Sum(c)) == |c| <==> |c| <= 1 || c[|c| - 1].size > 0
    decreases |c|
  {
    if |c| > 1 {
      WholeCompletionIff(c[1..]);
      SumZero(c[1..]);
      if Sum(c[1..]) == 0 { assert c[1..][|c| - 2].size == 0; } else if |c| == 2 { assert c[1..][1..] == []; }
    } else if |c| == 1 {
      assert c[1..] == [];
    }
  }

  lemma {:induction false} SumZero(c: seq<Bio>)
    ensures Sum(c) == 0 <==> forall i :: 0 <= i < |c| ==> c[i].size == 0
    decreases |c|
  {
    if c != [] {
      SumZero(c[1..]);
      if Sum(c) == 0 {
        forall i | 0 <= i < |c| ensures c[i].size == 0 { if i > 0 { assert c[i] == c[1..][i - 1]; } }
      }
      if forall i :: 0 <= i < |c| ==> c[i].size == 0 {
        forall i | 0 <= i < |c| - 1 ensures c[1..][i].size == 0 { assert c[1..][i] == c[i + 1]; }
      }
    }
  }

  /** What that means for a caller (blk_mq_end_request treats a true result as a bug). */
  lemma WholeUpdateIff(r: Req, error: int, k: Kind, cur: Bio -> nat)
    requires r.dataLen == Sum(r.bios)
    ensures !Update(r, r.dataLen, error, k, cur).1 <==> |r.bios| <= 1 || r.bios[|r.bios| - 1].size > 0
  {
    WholeCompletionIff(r.bios);
  }

  /** A 512-byte bio in front of an empty one: all bytes complete, and yet the request has more. Nothing
      here shows that a caller builds such a request; the promise is made for any. */
  lemma EmptyTailStays()
    ensures var r := Req([Bio(512, 0, 0, 0), Bio(0, 1, 0, 0)], 512, 0);
      Update(r, 512, 0, Kind(false, false, false, false), (b: Bio) => b.size) ==
      (Req([Bio(0, 1, 0, 0)], 0, 1), true)
  {
    var c := [Bio(512, 0, 0, 0), Bio(0, 1, 0, 0)];
    assert c[1..] == [Bio(0, 1, 0, 0)];
    assert Walk(c, 512, Ender(0, Kind(false, false, false, false), 0)) == [Bio(0, 0, 0, 1)] + c[1..];
  }

  // ----- Ended bios -----

  /** Every bio dropped is empty and was ended once more, unless in a flush sequence; one that stays and
      was still to come is as it was. */
  lemma {:induction false} DroppedAreEnded(c: seq<Bio>, n: nat, error: int, k: Kind, sector: int, i: nat)
    requires i < |c|
    ensures var w := Walk(c, n, Ender(error, k, sector));
      if i < Drops(c, n) then w[i].size == 0 && w[i].ended == c[i].ended + if k.flushSeq then 0 else 1
      else w[i].ended == c[i].ended && (i > Drops(c, n) ==> w[i] == c[i])
    decreases |c|
  {
    if i > 0 && n > c[0].size { DroppedAreEnded(c[1..], n - c[0].size, error, k, sector, i - 1); }
  }

  // ----- What becomes of each bio -----

  /** The bytes of the bios ahead of bio i. */
  function Ahead(c: seq<Bio>, i: nat): nat
    requires i <= |c|
  {
    if i == 0 then 0 else c[0].size + Ahead(c[1..], i - 1)
  }

  /** A completion of n bytes reaches the first bio, and any other for which bytes are left. */
  predicate Reached(c: seq<Bio>, n: nat, i: nat)
    requires i < |c|
  {
    i == 0 || n > Ahead(c, i)
  }

  /** How many bytes of bio i it completes. */
  function Share(c: seq<Bio>, n: nat, i: nat): nat
    requires i < |c| && Reached(c, n, i)
  {
    Min(c[i].size, n - Ahead(c, i))
  }

  /** What b, of which `bytes` complete, must become: shorter, ended if it is whole and no part of a flush
      sequence, and with the error if there is one. Without one a zone append must complete whole, and
      then tells where it was written; else status and sector stay. */
  predicate Completed(b: Bio, d: Bio, bytes: nat, error: int, k: Kind, sector: int) {
    && d.size == b.size - bytes
    && d.ended == b.ended + (if bytes == b.size && !k.flushSeq then 1 else 0)
    && d.status == (if error != 0 then error else if k.zoneAppend && bytes != b.size then IO_ERROR else b.status)
    && d.sector == (if error == 0 && k.zoneAppend && bytes == b.size then sector else b.sector)
  }

  /** A completion of n bytes does to each bio what is its share, and nothing to one that it does not
      reach; the bios that leave the request are those that are reached and whole. */
  lemma {:induction false} EachBioCompletes(c: seq<Bio>, n: nat, error: int, k: Kind, sector: int, i: nat)
    requires i < |c|
    ensures var w := Walk(c, n, Ender(error, k, sector));
      if Reached(c, n, i) then Completed(c[i], w[i], Share(c, n, i), error, k, sector) else w[i] == c[i]
    ensures i < Drops(c, n) <==> Reached(c, n, i) && Share(c, n, i) == c[i].size
    decreases |c|
  {
    if i > 0 && n > c[0].size {
      EachBioCompletes(c[1..], n - c[0].size, error, k, sector, i - 1);
    }
  }

  /** So an error is seen by every bio that a failed completion takes from the request. */
  lemma FailureIsReported(c: seq<Bio>, n: nat, error: int, k: Kind, sector: int, i: nat)
    requires i < Drops(c, n) && error != 0
    ensures var d := Walk(c, n, Ender(error, k, sector))[i];
      d.status == error && d.size == 0 && (!k.flushSeq ==> d.ended == c[i].ended + 1)
  {
    EachBioCompletes(c, n, error, k, sector, i);
  }

  // ----- Partial completions compose -----

  function Shrink(b: Bio, n: nat): Bio
    requires n <= b.size
  {
    b.(size := b.size - n)
  }

  /** The bios left after n bytes, for a request without error that is no zone append. */
  function Rest(c: seq<Bio>, n: nat): seq<Bio>
    decreases |c|
  {
    if c == [] then []
    else if n < c[0].size then [Shrink(c[0], n)] + c[1..]
    else if n == c[0].size then c[1..]
    else Rest(c[1..], n - c[0].size)
  }

  lemma {:induction false} WalkLeavesRest(c: seq<Bio>, n: nat, k: Kind, sector: int)
    requires !k.zoneAppend
    ensures Walk(c, n, Ender(0, k, sector))[Drops(c, n)..] == Rest(c, n)
    decreases |c|
  {
    if c != [] {
      var w := Walk(c, n, Ender(0, k, sector));
      if n > c[0].size {
        WalkLeavesRest(c[1..], n - c[0].size, k, sector);
        var v := Walk(c[1..], n - c[0].size, Ender(0, k, sector));
        assert w[1..] == v;
        assert w[Drops(c, n)..] == v[Drops(c, n) - 1..];
      } else if n < c[0].size {
        assert w[0] == Shrink(c[0], n) && w[1..] == c[1..];
      }
    }
  }

  /** Completing a bytes and then b more leaves what completing a + b bytes leaves. */
  lemma {:induction false} PartsCompose(c: seq<Bio>, a: nat, b: nat)
    requires b > 0
    ensures Rest(Rest(c, a), b) == Rest(c, a + b)
    decreases |c|
  {
    if c != [] {
      if a < c[0].size {
        assert Rest(c, a)[1..] == c[1..];
      } else if a > c[0].size {
        PartsCompose(c[1..], a - c[0].size, b);
      }
    }
  }

  function SumOf(ns: seq<nat>): nat { if ns == [] then 0 else SumOf(ns[..|ns| - 1]) + ns[|ns| - 1] }

  function RestAfter(c: seq<Bio>, ns: seq<nat>): seq<Bio> {
    if ns == [] then c else Rest(RestAfter(c, ns[..|ns| - 1]), ns[|ns| - 1])
  }

  /** However a completion is cut into positive parts, the request ends up the same. */
  lemma {:induction false} AnyPartition(c: seq<Bio>, ns: seq<nat>)
    requires ns != [] && forall i :: 0 <= i < |ns| ==> ns[i] > 0
    ensures RestAfter(c, ns) == Rest(c, SumOf(ns))
  {
    var m := |ns| - 1;
    if m == 0 {
      assert ns[..0] == [];
      assert RestAfter(c, ns[..0]) == c && SumOf(ns[..0]) == 0;
    } else {
      AnyPartition(c, ns[..m]);
      PartsCompose(c, SumOf(ns[..m]), ns[m]);
    }
  }

  /** Nothing is left exactly after all bytes, of a request whose last bio is not empty or its only one. */
  predicate Finishes(c: seq<Bio>, n: nat) {
    n >= Sum(c) && (|c| <= 1 || c[|c| - 1].size > 0 || n > Sum(c))
  }

  lemma {:induction false} RestEmptyIff(c: seq<Bio>, n: nat)
    ensures Rest(c, n) == [] <==> c == [] || Finishes(c, n)
    decreases |c|
  {
    if c != [] {
      var t := c[1..];
      assert Sum(c) == c[0].size + Sum(t);
      if |t| > 0 {
        assert t[|t| - 1] == c[|c| - 1];
        SumZero(t);
      }
      if n > c[0].size {
        RestEmptyIff(t, n - c[0].size);
        if |t| == 1 { assert t[1..] == []; }
      }
    }
  }

  // ----- Sectors -----

  lemma RestOfPart(c: seq<Bio>, n: nat, k: Kind)
    requires !k.zoneAppend && n <= Sum(c)
    ensures Sum(Rest(c, n)) == Sum(c) - n && Total(c, n) == n && (n < Sum(c) ==> Rest(c, n) != [])
  {
    DropsAll(c, n, 0, k, 0);
    WalkLeavesRest(c, n, k, 0);
  }

  lemma PartialUpdate(r: Req, n: nat, k: Kind, cur: Bio -> nat)
    requires r.dataLen == Sum(r.bios) < 0x1_0000_0000 && n <= r.dataLen && Segments(cur) && Rest(r.bios, n) != []
    requires !k.zoneAppend && !k.passthrough
    ensures Update(r, n, 0, k, cur) == (Req(Rest(r.bios, n), r.dataLen - n, r.sector + n / 512), true)
  {
    WalkLeavesRest(r.bios, n, k, r.sector);
    RestOfPart(r.bios, n, k);
  }

  /** The part that finishes a request leaves its sector. */
  lemma FinalUpdate(r: Req, n: nat, k: Kind, cur: Bio -> nat)
    requires r.bios != [] && Rest(r.bios, n) == [] && !k.zoneAppend
    ensures Update(r, n, 0, k, cur) == (Req([], 0, r.sector), false)
  {
    WalkLeavesRest(r.bios, n, k, r.sector);
  }

  lemma SectorsAdd(a: nat, b: nat)
    ensures a / 512 + b / 512 == (a + b) / 512 <==> a % 512 + b % 512 < 512
  {
  }

  /** Whether a request that was completed in two parts is as if it had been completed at once. */
  predicate Composes(r: Req, a: nat, b: nat, k: Kind, cur: Bio -> nat) {
    Update(Update(r, a, 0, k, cur).0, b, 0, k, cur) == Update(r, a + b, 0, k, cur)
  }

  lemma BothParts(r: Req, a: nat, b: nat, k: Kind, cur: Bio -> nat, mid: Req)
    requires r.dataLen == Sum(r.bios) < 0x1_0000_0000 && 0 < b && a + b <= r.dataLen && Segments(cur)
    requires !k.zoneAppend && !k.passthrough
    requires mid == Req(Rest(r.bios, a), r.dataLen - a, r.sector + a / 512) && Rest(r.bios, a + b) != []
    ensures Update(r, a, 0, k, cur).0 == mid
    ensures Update(mid, b, 0, k, cur) == (Req(Rest(r.bios, a + b), r.dataLen - (a + b), mid.sector + b / 512), true)
  {
    RestOfPart(r.bios, a, k);
    PartialUpdate(r, a, k, cur);
    PartsCompose(r.bios, a, b);
    PartialUpdate(mid, b, k, cur);
  }

  lemma ComposesIs(r: Req, a: nat, b: nat, k: Kind, cur: Bio -> nat,
                   bios: seq<Bio>, len: nat, more: bool, x: int, y: int)
    requires Update(Update(r, a, 0, k, cur).0, b, 0, k, cur) == (Req(bios, len, x), more)
    requires Update(r, a + b, 0, k, cur) == (Req(bios, len, y), more)
    ensures Composes(r, a, b, k, cur) <==> x == y
  {
  }

  /** The same with the request at once given: x and y are the sectors after both parts and at once. */
  lemma ComposesSectors(r: Req, a: nat, b: nat, k: Kind, cur: Bio -> nat, mid: Req, once: Req)
    requires r.dataLen == Sum(r.bios) < 0x1_0000_0000 && 0 < b && a + b <= r.dataLen && Segments(cur)
    requires !k.zoneAppend && !k.passthrough && Rest(r.bios, a + b) != []
    requires mid == Req(Rest(r.bios, a), r.dataLen - a, r.sector + a / 512)
    requires once == Req(Rest(r.bios, a + b), r.dataLen - (a + b), once.sector)
    requires Update(r, a + b, 0, k, cur) == (once, true)
    ensures Composes(r, a, b, k, cur) <==> mid.sector + b / 512 == once.sector
  {
    BothParts(r, a, b, k, cur, mid);
    ComposesIs(r, a, b, k, cur, once.bios, once.dataLen, true, mid.sector + b / 512, once.sector);
  }

  /** Two parts of which the second finishes the request. */
  lemma ComposesAtEnd(r: Req, a: nat, b: nat, k: Kind, cur: Bio -> nat)
    requires r.dataLen == Sum(r.bios) < 0x1_0000_0000 && 0 < b && a + b <= r.dataLen && Segments(cur)
    requires !k.zoneAppend && !k.passthrough && Rest(r.bios, a + b) == []
    ensures Composes(r, a, b, k, cur) <==> a < 512
  {
    RestOfPart(r.bios, a, k);
    PartialUpdate(r, a, k, cur);
    PartsCompose(r.bios, a, b);
    var mid := Req(Rest(r.bios, a), r.dataLen - a, r.sector + a / 512);
    FinalUpdate(mid, b, k, cur);
    FinalUpdate(r, a + b, k, cur);
    ComposesIs(r, a, b, k, cur, [], 0, false, mid.sector, r.sector);
  }

  lemma ComposesInside(r: Req, a: nat, b: nat, k: Kind, cur: Bio -> nat)
    requires r.dataLen == Sum(r.bios) < 0x1_0000_0000 && 0 < b && a + b <= r.dataLen && Segments(cur)
    requires !k.zoneAppend && !k.passthrough && Rest(r.bios, a + b) != []
    ensures Composes(r, a, b, k, cur) <==> a % 512 + b % 512 < 512
  {
    PartialUpdate(r, a + b, k, cur);
    ComposesSectors(r, a, b, k, cur, Req(Rest(r.bios, a), r.dataLen - a, r.sector + a / 512),
                    Req(Rest(r.bios, a + b), r.dataLen - (a + b), r.sector + (a + b) / 512));
    SectorsAdd(a, b);
  }

  /** Two partial completions leave the request as one of their sum does, if and only if the odd bytes
      of the two parts do not make up another sector, or, when the second part finishes the request and
      so leaves the sector, if the first part did not move it either. */
  lemma UpdatesComposeIff(r: Req, a: nat, b: nat, k: Kind, cur: Bio -> nat)
    requires r.dataLen == Sum(r.bios) < 0x1_0000_0000 && 0 < b && a + b <= r.dataLen && Segments(cur)
    requires !k.zoneAppend && !k.passthrough
    ensures Composes(r, a, b, k, cur) <==>
      if Finishes(r.bios, a + b) then a < 512 else a % 512 + b % 512 < 512
  {
    RestEmptyIff(r.bios, a + b);
    if Finishes(r.bios, a + b) { ComposesAtEnd(r, a, b, k, cur); } else { ComposesInside(r, a, b, k, cur); }
  }

  /** Two halves of a sector, one after the other, do not move the sector of a request; at once they do. */
  lemma HalfSectorsAreLost()
    ensures var r, k, cur := Req([Bio(1024, 0, 0, 0)], 1024, 0), Kind(false, false, false, false), (b: Bio) => b.size;
      && Update(Update(r, 256, 0, k, cur).0, 256, 0, k, cur).0.sector == 0
      && Update(r, 512, 0, k, cur).0.sector == 1
  {
    var r, k, cur := Req([Bio(1024, 0, 0, 0)], 1024, 0), Kind(false, false, false, false), (b: Bio) => b.size;
    assert Sum(r.bios) == 1024 by { assert r.bios[1..] == []; }
    PartialUpdate(r, 512, k, cur);
    BothParts(r, 256, 256, k, cur, Req(Rest(r.bios, 256), 768, 0));
  }
}
