/**
 How submission queues are spread over completion queues (daredevil/include/linux/blk-blex.h:384-508).
 Queues are numbered from 1; the first queue of a block has the completion queue of the block.
 With `max` queues and `nr` completion queues the first max % nr blocks are one queue longer.

 Each numbering function computes the average `a` = max / nr and the remainder `x` = max % nr first;
 the part after that is a function of its own here, so that laws can be proved for any a and x.
*/
module Partition {
  import opened Arithmetic

  predicate Sane(max: nat, nr: nat) { 1 <= nr <= max }

  // ----- The numbering functions, given the average and the remainder -----

  function NoExtra(a: nat, x: nat): nat { x * (a + 1) + 1 }

  function Kth(j: nat, a: nat, x: nat): nat {
    if j < x then j * (a + 1) + 1 else x + j * a + 1
  }

  function Width(cqid: nat, m: nat, a: nat): nat {
    if cqid < m then a + 1 else a
  }

  function IndexOf(cqid: nat, m: nat, a: nat): nat
    requires a >= 1
  {
    if cqid <= m then cqid / (a + 1) else (cqid - m) / a + m / (a + 1)
  }

  function RoundDown(q: nat, d: nat): nat
    requires d >= 1
  {
    q / d * d
  }

  function HeadOf(qid: nat, m: nat, a: nat): nat
    requires a >= 1 && qid >= 1
  {
    if qid < m then RoundDown(qid - 1, a + 1) + 1 else m + RoundDown(qid - m, a)
  }

  // ----- The numbering functions -----

  function Average(max: nat, nr: nat): (a: nat)
    requires Sane(max, nr)
    ensures a >= 1 && max == nr * a + max % nr
  {
    AveragePositive(max, nr);
    max / nr
  }

  function Extra(max: nat, nr: nat): (x: nat)
    requires nr >= 1
    ensures x < nr
  {
    max % nr
  }

  /** blk_blex_min_no_extra_sq_cqid. */
  function MinNoExtra(max: nat, nr: nat): nat
    requires Sane(max, nr)
  {
    NoExtra(Average(max, nr), Extra(max, nr))
  }

  /** blk_blex_get_cq_nr_nsqs. */
  function CqNrNsqs(cqid: nat, max: nat, nr: nat): nat
    requires Sane(max, nr)
  {
    Width(cqid, MinNoExtra(max, nr), Average(max, nr))
  }

  /** blk_blex_get_kth_cqid. */
  function KthCqid(k: nat, max: nat, nr: nat): nat
    requires Sane(max, nr)
  {
    Kth(k % nr, Average(max, nr), Extra(max, nr))
  }

  /** blk_blex_cqid_to_index. */
  function CqidToIndex(cqid: nat, max: nat, nr: nat): nat
    requires Sane(max, nr)
  {
    IndexOf(cqid, MinNoExtra(max, nr), Average(max, nr))
  }

  /** blk_blex_get_cqid. */
  function GetCqid(qid: nat, max: nat, nr: nat): nat
    requires Sane(max, nr) && qid >= 1
  {
    HeadOf(qid, MinNoExtra(max, nr), Average(max, nr))
  }

  /** blk_blex_get_tag_idx. */
  function TagIdx(hctxIdx: nat, max: nat, nr: nat): nat
    requires Sane(max, nr)
  {
    CqidToIndex(GetCqid(hctxIdx + 1, max, nr), max, nr)
  }

  /** blk_blex_has_cq. */
  predicate HasCq(qid: nat, max: nat, nr: nat)
    requires Sane(max, nr) && qid >= 1
  {
    qid == GetCqid(qid, max, nr)
  }

  // ----- Arithmetic -----

  lemma AveragePositive(max: nat, nr: nat)
    requires Sane(max, nr)
    ensures max / nr >= 1 && max == nr * (max / nr) + max % nr
  {
    DivMod(max, nr);
  }

  lemma Distribute(a: nat, b: nat, d: nat)
    ensures (a + b) * d == a * d + b * d
  {
  }

  lemma RoundDownOf(k: nat, d: nat, r: nat)
    requires r < d
    ensures RoundDown(k * d + r, d) == k * d
  {
    DivOf(k, d, r);
  }

  // ----- Blocks -----

  function Size(k: nat, a: nat, x: nat): nat { if k < x then a + 1 else a }

  lemma NextStart(k: nat, a: nat, x: nat)
    ensures Kth(k + 1, a, x) == Kth(k, a, x) + Size(k, a, x)
  {
    Distribute(k, 1, a + 1);
    Distribute(k, 1, a);
    if k + 1 == x { assert (k + 1) * (a + 1) == x * a + x; }
  }

  lemma {:induction false} StartsGrow(j: nat, k: nat, a: nat, x: nat)
    requires j <= k
    ensures Kth(j, a, x) <= Kth(k, a, x)
    ensures j < k ==> Kth(j, a, x) + Size(j, a, x) <= Kth(k, a, x)
    decreases k - j
  {
    if j < k {
      NextStart(j, a, x);
      StartsGrow(j + 1, k, a, x);
    }
  }

  lemma NoExtraIsStart(a: nat, x: nat)
    ensures NoExtra(a, x) == Kth(x, a, x)
  {
    assert x * (a + 1) == x * a + x;
  }

  /** Past the long blocks, block starts lie a multiple of the average behind the first of them. */
  lemma ShortStart(k: nat, a: nat, x: nat)
    requires k >= x
    ensures Kth(k, a, x) == NoExtra(a, x) + (k - x) * a
  {
    Distribute(x, k - x, a);
    NoExtraIsStart(a, x);
  }

  /** Every queue of block k has the first queue of the block as its completion queue. */
  lemma HeadOfBlock(k: nat, j: nat, a: nat, x: nat)
    requires a >= 1 && j < Size(k, a, x)
    ensures HeadOf(Kth(k, a, x) + j, NoExtra(a, x), a) == Kth(k, a, x)
  {
    if k < x {
      Spread(a + 1, k, x);
      RoundDownOf(k, a + 1, j);
    } else {
      ShortStart(k, a, x);
      RoundDownOf(k - x, a, j);
    }
  }

  lemma IndexOfBlock(k: nat, a: nat, x: nat)
    requires a >= 1
    ensures IndexOf(Kth(k, a, x), NoExtra(a, x), a) == k
  {
    DivOf(x, a + 1, 1);
    if k < x {
      Spread(a + 1, k, x);
      DivOf(k, a + 1, 1);
    } else {
      ShortStart(k, a, x);
      DivOf(k - x, a, 0);
    }
  }

  lemma WidthOfBlock(k: nat, a: nat, x: nat)
    ensures Width(Kth(k, a, x), NoExtra(a, x), a) == Size(k, a, x)
  {
    if k < x { Spread(a + 1, k, x); } else { ShortStart(k, a, x); }
  }

  /** Every queue lies in some block. */
  lemma {:induction false} BlockOf(q: nat, k: nat, nr: nat, a: nat, x: nat) returns (b: nat)
    requires k < nr && Kth(k, a, x) <= q < Kth(nr, a, x)
    ensures k <= b < nr && Kth(b, a, x) <= q < Kth(b, a, x) + Size(b, a, x)
    decreases nr - k
  {
    NextStart(k, a, x);
    if q < Kth(k + 1, a, x) {
      b := k;
    } else {
      b := BlockOf(q, k + 1, nr, a, x);
    }
  }

  lemma KthOf(k: nat, max: nat, nr: nat)
    requires Sane(max, nr) && k < nr
    ensures KthCqid(k, max, nr) == Kth(k, Average(max, nr), Extra(max, nr))
  {
    SmallMod(k, nr);
  }

  lemma SmallMod(k: nat, nr: nat)
    requires k < nr
    ensures k % nr == k
  {
  }

  /** The last block ends with the last queue. */
  lemma LastStart(max: nat, nr: nat)
    requires Sane(max, nr)
    ensures Kth(nr, Average(max, nr), Extra(max, nr)) == max + 1
  {
  }

  /** The nr blocks follow one another without gap or overlap and fill 1..max. */
  lemma BlocksFill(max: nat, nr: nat)
    requires Sane(max, nr)
    ensures KthCqid(0, max, nr) == 1
    ensures forall k :: 0 <= k < nr - 1 ==>
      KthCqid(k, max, nr) + CqNrNsqs(KthCqid(k, max, nr), max, nr) == KthCqid(k + 1, max, nr)
    ensures var last := KthCqid(nr - 1, max, nr); last + CqNrNsqs(last, max, nr) == max + 1
  {
    var a, x := Average(max, nr), Extra(max, nr);
    KthOf(0, max, nr);
    forall k: nat | k < nr
      ensures KthCqid(k, max, nr) == Kth(k, a, x)
      ensures KthCqid(k, max, nr) + CqNrNsqs(KthCqid(k, max, nr), max, nr) == Kth(k + 1, a, x)
    {
      KthOf(k, max, nr);
      NextStart(k, a, x);
      WidthOfBlock(k, a, x);
    }
    LastStart(max, nr);
  }

  /** The partition: each queue belongs to exactly the block of its completion queue, whose index,
      bounds and size all the numbering functions agree on. */
  lemma QueueInItsBlock(q: nat, max: nat, nr: nat)
    requires Sane(max, nr) && 1 <= q <= max
    ensures var c := GetCqid(q, max, nr); var k := CqidToIndex(c, max, nr);
      && 1 <= c <= q < c + CqNrNsqs(c, max, nr) <= max + 1
      && GetCqid(c, max, nr) == c
      && k < nr && KthCqid(k, max, nr) == c && TagIdx(q - 1, max, nr) == k
  {
    var a, x := Average(max, nr), Extra(max, nr);
    LastStart(max, nr);
    var b := BlockOf(q, 0, nr, a, x);
    HeadOfBlock(b, q - Kth(b, a, x), a, x);
    HeadOfBlock(b, 0, a, x);
    IndexOfBlock(b, a, x);
    WidthOfBlock(b, a, x);
    KthOf(b, max, nr);
    NextStart(b, a, x);
    StartsGrow(b + 1, nr, a, x);
  }

  /** get_kth_cqid and cqid_to_index are inverse to each other (the other half is in QueueInItsBlock),
      and the queues of block k are just those whose completion queue is the k-th one. */
  lemma IndexInverse(k: nat, q: nat, max: nat, nr: nat)
    requires Sane(max, nr) && k < nr && 1 <= q <= max
    ensures CqidToIndex(KthCqid(k, max, nr), max, nr) == k
    ensures HasCq(KthCqid(k, max, nr), max, nr)
    ensures var c := KthCqid(k, max, nr); GetCqid(q, max, nr) == c <==> c <= q < c + CqNrNsqs(c, max, nr)
  {
    var a, x := Average(max, nr), Extra(max, nr);
    KthOf(k, max, nr);
    IndexOfBlock(k, a, x);
    HeadOfBlock(k, 0, a, x);
    WidthOfBlock(k, a, x);
    QueueInItsBlock(q, max, nr);
    var c := KthCqid(k, max, nr);
    if c <= q < c + CqNrNsqs(c, max, nr) { HeadOfBlock(k, q - c, a, x); }
  }

  lemma CqidBounds(k: nat, max: nat, nr: nat)
    requires Sane(max, nr) && k < nr
    ensures 1 <= KthCqid(k, max, nr) <= max
  {
    var a, x := Average(max, nr), Extra(max, nr);
    KthOf(k, max, nr);
    LastStart(max, nr);
    StartsGrow(k, nr, a, x);
  }

  /** A request's tags come from the tag set of its submission queue (blk_mq_init_hctx) and are looked
      up in the tag set of the completion queue (nvme_queue_tagset). The two are the same exactly for
      the completion queue the submission queue was created with; the index is always in range. */
  lemma CompletionFindsTags(sq: nat, cq: nat, max: nat, nr: nat)
    requires Sane(max, nr) && 1 <= sq <= max && 1 <= cq <= max && HasCq(cq, max, nr)
    ensures TagIdx(sq - 1, max, nr) < nr
    ensures TagIdx(sq - 1, max, nr) == TagIdx(cq - 1, max, nr) <==> GetCqid(sq, max, nr) == cq
  {
    QueueInItsBlock(sq, max, nr);
    QueueInItsBlock(cq, max, nr);
  }
}
