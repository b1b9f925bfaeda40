/**
 The counters behind a round-robin choice (daredevil/block/blk-blex.c:288-323). Both counters are
 32-bit atomics that wrap to -2^31. The completion queue type reads its counter as unsigned; the
 submission queue type assigns the unsigned value to an int before it takes the remainder.
*/
module RoundRobins {
  import opened Arithmetic
  import opened Merits

  /** C's remainder of ints. */
  function Rem(x: int, d: Pos): int { x - Quot(x, d) * d }

  function Inc(counter: int): int { ToInt(counter + 1) }

  /** The offset as an unsigned remainder. */
  function UnsignedOffset(counter: int, n: Pos): (r: nat)
    ensures r < n
  {
    ToUnsigned(counter) % n
  }

  /** The pick of type BLEX_NSQ in a group of n queues from start on. */
  function NsqPick(start: nat, n: Pos, counter: int): int { start + Rem(counter, n) }

  lemma RemOf(x: int, d: Pos)
    requires x >= 0
    ensures Rem(x, d) == x % d && 0 <= x % d < d
    ensures Rem(-x, d) == -(x % d)
  {
    DivMod(x, d);
  }

  /** The pick lies in the group's interval exactly as long as the counter has not wrapped, or happens
      to be a multiple of the group's size. Otherwise it lies before the interval. */
  lemma NsqPickInGroupIff(start: nat, n: Pos, counter: int)
    ensures start <= NsqPick(start, n, counter) < start + n <==> counter >= 0 || (-counter) % n == 0
    ensures start - n < NsqPick(start, n, counter) < start + n
  {
    if counter >= 0 { RemOf(counter, n); } else { RemOf(-counter, n); }
  }

  /** The first pick after the counter wraps, with the queues 5, 6 and 7 in the group, is queue 3. */
  lemma WrappedCounterLeavesGroup()
    ensures Inc(TWO_31 - 1) == -TWO_31 && NsqPick(5, 3, -TWO_31) == 3
  {
    DivUnique(TWO_31, 3, 715827882, 2);
    assert Quot(-TWO_31, 3) == -715827882;
  }

  lemma ModUnique(x: nat, d: nat, q: nat, r: nat)
    requires r < d && x == d * q + r
    ensures x % d == r
  {
    DivUnique(x, d, q, r);
    DivMod(x, d);
  }

  /** The turn, counted from counter c, at which offset t comes up. */
  function Turn(c: nat, n: Pos, t: nat): (i: nat)
    requires t < n
    ensures i < n
  {
    DivMod(c, n);
    if t >= c % n then t - c % n else t - c % n + n
  }

  /** n consecutive counter values hit every offset exactly once. */
  lemma EachOffsetOnce(c: nat, n: Pos, t: nat, i: nat)
    requires t < n && i < n
    ensures (c + i) % n == t <==> i == Turn(c, n, t)
  {
    DivMod(c, n);
    var (q, r) := (c / n, c % n);
    if r + i < n {
      ModUnique(c + i, n, q, r + i);
    } else {
      assert n * (q + 1) == n * q + n;
      ModUnique(c + i, n, q + 1, r + i - n);
    }
  }

  /** One cycle of picks of type BLEX_NSQ visits each queue of the group once. */
  lemma NsqCycle(start: nat, n: Pos, counter: nat, q: nat, i: nat)
    requires start <= q < start + n && i < n
    ensures NsqPick(start, n, counter + i) == q <==> i == Turn(counter, n, q - start)
  {
    RemOf(counter + i, n);
    EachOffsetOnce(counter, n, q - start, i);
  }

  /** One cycle of unsigned offsets that does not wrap visits each offset once. */
  lemma UnsignedCycle(n: Pos, counter: int, t: nat, i: nat)
    requires IsInt(counter) && t < n && i < n && ToUnsigned(counter) + i < TWO_32
    ensures UnsignedOffset(counter + i, n) == t <==> i == Turn(ToUnsigned(counter), n, t)
  {
    Continues(counter, i);
    EachOffsetOnce(ToUnsigned(counter), n, t, i);
  }

  lemma Continues(counter: int, i: nat)
    requires IsInt(counter) && ToUnsigned(counter) + i < TWO_32
    ensures ToUnsigned(counter + i) == ToUnsigned(counter) + i
  {
    if counter >= 0 {
      assert ToUnsigned(counter) == counter;
    } else {
      assert ToUnsigned(counter) == counter + TWO_32;
    }
  }
}
