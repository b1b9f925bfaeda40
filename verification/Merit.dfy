/**
 The scheduling merit of a queue (daredevil/block/blk-blex.c:971-1002): an integer moving average.
 Ints and unsigned ints are 32 bits wide and wrap; the two divisions of the average truncate.
*/
module Merits {
  import opened Arithmetic

  const TWO_31: int := 0x8000_0000
  const TWO_32: int := 0x1_0000_0000
  const INF: int := 0x7fff_ffff

  datatype Kind = Nsq | Ncq

  type Pos = x: nat | x > 0 witness 1

  /** Module parameters: the weight of a sample, and the uses between two updates of a heap. */
  datatype Params = Params(numer: int, denom: Pos, mru: int)

  /** The statistics of an exposed queue the merit is computed from. `attached` holds for a queue that
      is a completion queue too, whose fields are those with prefix c; `cores` is the number of
      claimed cores. */
  datatype Stats = Stats(inFlight: nat, complete: nat, irqs: nat, cMerit: int, qdepth: Pos,
                         inLockNs: nat, submitRqs: nat, cores: nat, sMerit: int)

  predicate IsInt(x: int) { -TWO_31 <= x < TWO_31 }

  function ToInt(x: int): (r: int)
    ensures IsInt(r)
    ensures IsInt(x) ==> r == x
  {
    (x + TWO_31) % TWO_32 - TWO_31
  }

  function ToUnsigned(x: int): nat { x % TWO_32 }

  /** C's signed division. */
  function Quot(x: int, d: int): int
    requires d > 0
  {
    if x >= 0 then x / d else -((-x) / d)
  }

  /** The new sample, before the average. */
  function Sample(kind: Kind, s: Stats): int {
    match kind
    case Ncq => ToInt(ToUnsigned(ToUnsigned(s.inFlight * s.irqs) / s.qdepth + s.complete))
    case Nsq =>
      if s.submitRqs == 0 then 0
      else ToInt(ToUnsigned(s.inLockNs * (s.cores + 1)) / s.submitRqs)
  }

  function Last(kind: Kind, s: Stats): int {
    match kind
    case Ncq => s.cMerit
    case Nsq => s.sMerit
  }

  /** The average as written, on 32-bit ints. */
  function Average(last: int, tmp: int, numer: int, denom: int): int
    requires denom > 0
  {
    Combine(last, ToInt(last * numer), ToInt(tmp * numer), denom)
  }

  function Combine(last: int, p: int, q: int, denom: int): int
    requires denom > 0
  {
    ToInt(ToInt(last - Quot(p, denom)) + Quot(q, denom))
  }

  /** The average meant, on integers that do not overflow. */
  function Exact(last: int, tmp: int, numer: int, denom: int): int
    requires denom > 0
  {
    last - Quot(last * numer, denom) + Quot(tmp * numer, denom)
  }

  /** blk_blex_calc_sched_merit. */
  function CalcMerit(kind: Kind, s: Stats, p: Params): int {
    Average(Last(kind, s), Sample(kind, s), p.numer, p.denom)
  }

  /** The merits of one kind of queue, as a function of the statistics alone. */
  function MeritOf(kind: Kind, p: Params): Stats -> int {
    s => CalcMerit(kind, s, p)
  }

  lemma MeritIsInt(kind: Kind, p: Params, s: Stats)
    ensures IsInt(MeritOf(kind, p)(s)) && MeritOf(kind, p)(s) <= INF
  {
  }

  /** The statistics after the queue lost the top of its heap (blk-blex.c:1076-1086). */
  function Reset(kind: Kind, s: Stats, merit: int): Stats {
    match kind
    case Ncq => s.(cMerit := merit, inFlight := 0, complete := 0, irqs := 0)
    case Nsq => s.(sMerit := merit, inLockNs := 0, submitRqs := 0)
  }

  // ----- Bounds -----

  lemma Minus(x: nat, y: nat, k: nat)
    requires x <= y
    ensures y * k == x * k + (y - x) * k
  {
  }

  /** Truncating division by denom grows by at most the growth of the factor. */
  lemma QuotientGrowth(x: nat, y: nat, numer: nat, denom: nat)
    requires 0 < denom && numer <= denom && x <= y
    ensures x * numer / denom <= y * numer / denom <= x * numer / denom + y - x
  {
    Minus(x, y, numer);
    Scale(y - x, numer, denom);
    AddMultiple(x * numer, y - x, denom);
    assert denom * (y - x) == (y - x) * denom;
    DivMono(x * numer, y * numer, denom);
    DivMono(y * numer, x * numer + denom * (y - x), denom);
  }

  /** A factor's quotient is at most the factor. */
  lemma QuotientBelow(x: nat, numer: nat, denom: nat)
    requires 0 < denom && numer <= denom
    ensures 0 <= x * numer / denom <= x
  {
    QuotientGrowth(0, x, numer, denom);
    DivUnique(0, denom, 0, 0);
  }

  /** Despite both roundings, the average lies between the stored merit and the new sample. */
  lemma ExactIsBetween(last: nat, tmp: nat, numer: nat, denom: nat)
    requires 0 < denom && numer <= denom
    ensures if last <= tmp then last <= Exact(last, tmp, numer, denom) <= tmp
            else tmp <= Exact(last, tmp, numer, denom) <= last
  {
    if last <= tmp { QuotientGrowth(last, tmp, numer, denom); }
    else { QuotientGrowth(tmp, last, numer, denom); }
  }

  /** The weights are those meant: up to the two roundings, denom times the average is numer parts of the
      sample and the rest of the stored merit. */
  lemma ExactIsWeighted(last: nat, tmp: nat, numer: nat, denom: nat)
    requires 0 < denom && numer <= denom
    ensures var mean, e := numer * tmp + (denom - numer) * last, Exact(last, tmp, numer, denom);
      mean < denom * e + denom && denom * e < mean + denom
  {
    DivMod(last * numer, denom);
    DivMod(tmp * numer, denom);
    var (a, b) := (last * numer / denom, tmp * numer / denom);
    assert denom * (last - a + b) == denom * last - denom * a + denom * b;
    assert (denom - numer) * last == denom * last - numer * last;
  }

  /** A queue that left the top starts afresh: its merit is read back, its counters are at zero, and what
      concerns the other kind of queue stays. */
  lemma ResetStartsAfresh(kind: Kind, s: Stats, merit: int)
    ensures var t, other := Reset(kind, s, merit), if kind == Ncq then Nsq else Ncq;
      && Last(kind, t) == merit && Sample(kind, t) == 0
      && (kind == Ncq ==> t.inFlight == t.complete == t.irqs == 0)
      && (kind == Nsq ==> t.inLockNs == t.submitRqs == 0)
      && Last(other, t) == Last(other, s) && Sample(other, t) == Sample(other, s)
      && t.cores == s.cores && t.qdepth == s.qdepth
  {
    if kind == Ncq { QuotientBelow(0, 0, s.qdepth); }
  }

  /** A product that fits in an int averages exactly. */
  lemma AverageFits(last: nat, tmp: nat, numer: nat, denom: nat)
    requires 0 < denom && numer <= denom && last < TWO_31 && tmp < TWO_31
    requires last * numer < TWO_31 && tmp * numer < TWO_31
    ensures Average(last, tmp, numer, denom) == Exact(last, tmp, numer, denom)
  {
    var (p, q) := (last * numer, tmp * numer);
    ExactIsBetween(last, tmp, numer, denom);
    QuotientBelow(last, numer, denom);
    Fits(p);
    Fits(q);
    Sums(last, p, q, denom);
  }

  lemma Fits(p: nat)
    requires p < TWO_31
    ensures ToInt(p) == p
  {
  }

  lemma Sums(last: nat, p: nat, q: nat, denom: nat)
    requires 0 < denom && p / denom <= last < TWO_31 && last - p / denom + q / denom < TWO_31
    ensures Combine(last, p, q, denom) == last - Quot(p, denom) + Quot(q, denom)
  {
    Fits(last - p / denom);
    Fits(last - p / denom + q / denom);
  }

  /** How far a wrapped product lies from the product. */
  lemma Wrapped(p: nat)
    requires p >= TWO_31
    ensures ToInt(p) <= p - TWO_32
  {
  }

  lemma QuotientShrinks(p: nat, w: int, denom: nat)
    requires 2 <= denom < TWO_31 && IsInt(w) && w <= p - TWO_32
    ensures Quot(w, denom) < p / denom
    ensures -TWO_31 / 2 <= Quot(w, denom) < TWO_31
  {
    if w >= 0 { DivLess(w, p, denom); DivSmaller(w, denom); } else { DivHalf(-w, denom); DivLess(0, p, denom); }
  }

  lemma DivSmaller(w: nat, d: nat)
    requires d >= 1
    ensures w / d <= w
  {
    DivMod(w, d);
    Scale(w / d, 1, d);
  }

  lemma DivHalf(w: nat, d: nat)
    requires d >= 2 && w <= TWO_31
    ensures 0 <= w / d <= TWO_31 / 2
  {
    DivMod(w, d);
    Scale(w / d, 2, d);
  }

  lemma DivLess(w: nat, p: nat, d: nat)
    requires d >= 1 && p - w >= d
    ensures w / d < p / d
  {
    AddMultiple(w, 1, d);
    DivMono(w + d, p, d);
  }

  /** The exact condition: as long as the stored merit does not overflow, the average is the one meant
      if and only if the product of the sample with the numerator fits in an int. */
  lemma AverageIsExactIff(last: nat, tmp: nat, numer: nat, denom: nat)
    requires 2 <= denom < TWO_31 && numer <= denom && last < TWO_31 && tmp < TWO_31 && last * numer < TWO_31
    ensures Average(last, tmp, numer, denom) == Exact(last, tmp, numer, denom) <==> tmp * numer < TWO_31
  {
    if tmp * numer < TWO_31 {
      AverageFits(last, tmp, numer, denom);
    } else {
      var w := ToInt(tmp * numer);
      Wrapped(tmp * numer);
      QuotientShrinks(tmp * numer, w, denom);
      ExactIsBetween(last, tmp, numer, denom);
      QuotientBelow(last, numer, denom);
      WrapsApart(last - last * numer / denom, tmp * numer / denom, Quot(w, denom));
    }
  }

  /** Two sums less than 2^32 apart do not wrap to the same int. */
  lemma WrapsApart(base: nat, q: nat, r: int)
    requires base + q < TWO_31 && r < q && r >= -TWO_31
    ensures ToInt(base + r) != base + q
  {
  }

  /** With the default parameters (4 over 5, blk-blex.h:29-35) a sample of 2^29 makes the merit negative. */
  lemma LargeSampleTurnsNegative()
    ensures Average(0, 0x2000_0000, 4, 5) == -429496729
    ensures Exact(0, 0x2000_0000, 4, 5) == 429496729
  {
    var p := 0x2000_0000 * 4;
    assert p == TWO_31 && ToInt(p) == -TWO_31;
    DivUnique(TWO_31, 5, 429496729, 3);
    DivUnique(0, 5, 0, 0);
    assert Combine(0, 0, -TWO_31, 5) == -429496729;
  }

  // ----- Busier queues -----

  /** b has at least the load of a, on queues of the same depth or for as many requests. */
  predicate Busier(kind: Kind, a: Stats, b: Stats) {
    && 0 <= Last(kind, a) <= Last(kind, b)
    && match kind
       case Ncq => a.inFlight <= b.inFlight && a.irqs <= b.irqs && a.complete <= b.complete && a.qdepth == b.qdepth
       case Nsq => a.inLockNs <= b.inLockNs && a.cores <= b.cores && a.submitRqs == b.submitRqs
  }

  /** The load whose 32-bit arithmetic has to fit. */
  function Load(kind: Kind, s: Stats): nat {
    match kind
    case Ncq => s.inFlight * s.irqs + s.complete
    case Nsq => s.inLockNs * (s.cores + 1)
  }

  /** What the load gives without overflow. */
  function Plain(kind: Kind, s: Stats): nat {
    match kind
    case Ncq => s.inFlight * s.irqs / s.qdepth + s.complete
    case Nsq => if s.submitRqs == 0 then 0 else s.inLockNs * (s.cores + 1) / s.submitRqs
  }

  lemma SampleIsPlain(kind: Kind, s: Stats)
    requires Load(kind, s) < TWO_31
    ensures Sample(kind, s) == Plain(kind, s) <= Load(kind, s)
  {
    match kind
    case Ncq => PlainNcq(s.inFlight * s.irqs, s.complete, s.qdepth);
    case Nsq =>
      if s.submitRqs > 0 { PlainNsq(s.inLockNs * (s.cores + 1), s.submitRqs); }
  }

  lemma PlainNsq(x: nat, rqs: Pos)
    requires x < TWO_31
    ensures ToInt(ToUnsigned(x) / rqs) == x / rqs <= x
  {
    DivSmaller(x, rqs);
    Fits(x / rqs);
  }

  lemma PlainNcq(x: nat, complete: nat, depth: Pos)
    requires x + complete < TWO_31
    ensures ToInt(ToUnsigned(ToUnsigned(x) / depth + complete)) == x / depth + complete <= x + complete
  {
    DivSmaller(x, depth);
    Fits(x / depth + complete);
  }

  lemma ProductGrows(a: nat, b: nat, c: nat, d: nat)
    requires a <= c && b <= d
    ensures a * b <= c * d
  {
    Scale(a, b, d);
    ScaleLeft(a, c, d);
  }

  lemma PlainGrows(kind: Kind, a: Stats, b: Stats)
    requires Busier(kind, a, b)
    ensures Plain(kind, a) <= Plain(kind, b) && Load(kind, a) <= Load(kind, b)
  {
    match kind
    case Ncq =>
      ProductGrows(a.inFlight, a.irqs, b.inFlight, b.irqs);
      DivMono(a.inFlight * a.irqs, b.inFlight * b.irqs, a.qdepth);
    case Nsq =>
      ProductGrows(a.inLockNs, a.cores + 1, b.inLockNs, b.cores + 1);
      if a.submitRqs > 0 { DivMono(a.inLockNs * (a.cores + 1), b.inLockNs * (b.cores + 1), a.submitRqs); }
  }

  lemma ExactGrows(last: nat, tmp: nat, last': nat, tmp': nat, numer: nat, denom: nat)
    requires 0 < denom && numer <= denom && last <= last' && tmp <= tmp'
    ensures Exact(last, tmp, numer, denom) <= Exact(last', tmp', numer, denom)
  {
    QuotientGrowth(last, last', numer, denom);
    QuotientGrowth(tmp, tmp', numer, denom);
  }

  /** A busier queue never gets a smaller merit, so the min-heap does not prefer it, as long as the
      products fit in ints. */
  lemma BusierIsNoBetter(kind: Kind, a: Stats, b: Stats, p: Params)
    requires 0 <= p.numer <= p.denom && Busier(kind, a, b) && Load(kind, b) < TWO_31 && Last(kind, b) < TWO_31
    requires Plain(kind, b) * p.numer < TWO_31 && Last(kind, b) * p.numer < TWO_31
    ensures MeritOf(kind, p)(a) <= MeritOf(kind, p)(b)
  {
    PlainGrows(kind, a, b);
    SampleIsPlain(kind, a);
    SampleIsPlain(kind, b);
    ScaleLeft(Plain(kind, a), Plain(kind, b), p.numer);
    ScaleLeft(Last(kind, a), Last(kind, b), p.numer);
    AverageFits(Last(kind, a), Plain(kind, a), p.numer, p.denom);
    AverageFits(Last(kind, b), Plain(kind, b), p.numer, p.denom);
    ExactGrows(Last(kind, a), Plain(kind, a), Last(kind, b), Plain(kind, b), p.numer, p.denom);
  }

  // ----- Runs -----

  /** The stored merit after a sequence of updates with the given samples. */
  function Stored(samples: seq<nat>, start: int, numer: int, denom: int): int
    requires denom > 0
  {
    if samples == [] then start
    else Average(Stored(samples[..|samples| - 1], start, numer, denom), samples[|samples| - 1], numer, denom)
  }

  /** Over any run of updates whose products fit, the stored merit stays within any bounds that hold of
      its first value and of every sample. */
  lemma {:induction false} StoredIsBounded(samples: seq<nat>, start: nat, lo: nat, hi: nat, numer: nat, denom: nat)
    requires 0 < denom && numer <= denom && hi < TWO_31 && hi * numer < TWO_31
    requires lo <= start <= hi && forall i :: 0 <= i < |samples| ==> lo <= samples[i] <= hi
    ensures lo <= Stored(samples, start, numer, denom) <= hi
  {
    if samples != [] {
      var n := |samples| - 1;
      StoredIsBounded(samples[..n], start, lo, hi, numer, denom);
      var last, tmp := Stored(samples[..n], start, numer, denom), samples[n];
      ScaleLeft(last, hi, numer);
      ScaleLeft(tmp, hi, numer);
      AverageFits(last, tmp, numer, denom);
      ExactIsBetween(last, tmp, numer, denom);
    }
  }

  lemma ScaleLeft(a: nat, b: nat, k: nat)
    requires a <= b
    ensures a * k <= b * k
  {
  }
}
