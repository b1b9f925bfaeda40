/**
 PRP lists of the NVMe driver (daredevil/drivers/nvme/host/pci.c): how a scatter-gather list
 becomes PRP1, PRP2 and a chain of list pages, and what a controller that follows section 4.3
 of the NVM Express Base Specification 1.4 reads from them.
*/
module Prp {
  import opened Options

  const PAGE := 4096           // NVME_CTRL_PAGE_SIZE
  const SLOTS := PAGE / 8      // entries of a list page
  const SMALL := 256 / 8       // entries of a list from the small pool

  /** One mapped segment: sg_dma_address and sg_dma_len. */
  datatype Seg = Seg(addr: nat, len: nat)

  function Total(l: seq<Seg>): nat { if l == [] then 0 else l[0].len + Total(l[1..]) }

  /** The DMA address of byte i of the data. */
  function ByteAddr(l: seq<Seg>, i: nat): nat
    requires i < Total(l)
  {
    if i < l[0].len then l[0].addr + i else ByteAddr(l[1..], i - l[0].len)
  }

  /** Segments of which only the first may start, and only the last may end, inside a page. */
  predicate PageAligned(l: seq<Seg>) {
    l != [] ==>
      && l[0].len > 0
      && (|l| > 1 ==> (l[0].addr + l[0].len) % PAGE == 0 && l[1].addr % PAGE == 0)
      && PageAligned(l[1..])
  }

  /** What is left of the data after n bytes. */
  function DropBytes(l: seq<Seg>, n: nat): seq<Seg>
    requires n <= Total(l)
    decreases |l|
  {
    if n == 0 then l
    else if n < l[0].len then [Seg(l[0].addr + n, l[0].len - n)] + l[1..]
    else DropBytes(l[1..], n - l[0].len)
  }

  function DivRoundUp(a: nat, b: nat): nat
    requires b > 0
  {
    (a + b - 1) / b
  }

  /** How many bytes of the data the first page holds. */
  function FirstLen(addr: nat): nat { PAGE - addr % PAGE }

  /** The number of PRP entries after PRP1. */
  function NrPrps(addr: nat, length: nat): nat {
    if length <= FirstLen(addr) then 0 else DivRoundUp(length - FirstLen(addr), PAGE)
  }

  /** The address that entry k after PRP1 must hold: that of the byte its page begins with. */
  function Entry(l: seq<Seg>, k: nat): nat
    requires l != [] && FirstLen(l[0].addr) + k * PAGE < Total(l)
  {
    ByteAddr(l, FirstLen(l[0].addr) + k * PAGE)
  }

  // ----- The controller's side: section 4.3 of NVM Express 1.4 -----

  type Memory = map<nat, nat>   // 64-bit words by address

  /** Entry s of the page or part of a page at addr. */
  function Word(mem: Memory, addr: nat, s: nat): Option<nat> {
    if addr + 8 * s in mem then Some(mem[addr + 8 * s]) else None
  }

  /** n consecutive entries, from entry s on. */
  function ReadWords(mem: Memory, addr: nat, s: nat, n: nat): Option<seq<nat>>
    decreases n
  {
    if n == 0 then Some([])
    else
      var w, rest := Word(mem, addr, s), ReadWords(mem, addr, s + 1, n - 1);
      if w.Some? && rest.Some? then Some([w.value] + rest.value) else None
  }

  /** A list of n entries at addr. A page that cannot hold the rest of the list ends with the
      address of the next one. */
  function ReadList(mem: Memory, addr: nat, n: nat): Option<seq<nat>>
    decreases n
  {
    var room := SLOTS - addr % PAGE / 8;
    if n <= room then ReadWords(mem, addr, 0, n)
    else if room < 2 then None
    else
      var s, link := ReadWords(mem, addr, 0, room - 1), Word(mem, addr, room - 1);
      if s.None? || link.None? then None
      else
        var t := ReadList(mem, link.value, n - (room - 1));
        if t.None? then None else Some(s.value + t.value)
  }

  /** The pages a command with these pointers transfers to or from. */
  function ReadPrps(mem: Memory, prp1: nat, prp2: nat, length: nat): Option<seq<nat>> {
    var n := NrPrps(prp1, length);
    if n == 0 then Some([prp1])
    else if n == 1 then Some([prp1, prp2])
    else match ReadList(mem, prp2, n)
      case None => None
      case Some(s) => Some([prp1] + s)
  }

  /** The address the controller uses for byte i. */
  function PrpByteAddr(pages: seq<nat>, i: nat): Option<nat>
    requires pages != []
  {
    var first := FirstLen(pages[0]);
    if i < first then Some(pages[0] + i)
    else if 1 + (i - first) / PAGE < |pages| then Some(pages[1 + (i - first) / PAGE] + (i - first) % PAGE)
    else None
  }

  // ----- The byte view of a scatter-gather list -----

  lemma {:induction false} DropTotal(l: seq<Seg>, n: nat)
    requires n <= Total(l)
    ensures Total(DropBytes(l, n)) == Total(l) - n
    decreases |l|
  {
    if n != 0 {
      if n < l[0].len {
        assert ([Seg(l[0].addr + n, l[0].len - n)] + l[1..])[1..] == l[1..];
      } else {
        DropTotal(l[1..], n - l[0].len);
      }
    }
  }

  lemma {:induction false} DropByteAddr(l: seq<Seg>, n: nat, i: nat)
    requires n + i < Total(l)
    ensures Total(DropBytes(l, n)) == Total(l) - n
    ensures ByteAddr(DropBytes(l, n), i) == ByteAddr(l, n + i)
    decreases |l|
  {
    DropTotal(l, n);
    if n != 0 {
      if n < l[0].len {
        assert ([Seg(l[0].addr + n, l[0].len - n)] + l[1..])[1..] == l[1..];
      } else {
        DropByteAddr(l[1..], n - l[0].len, i);
      }
    }
  }

  lemma {:induction false} DropDrop(l: seq<Seg>, m: nat, n: nat)
    requires m + n <= Total(l)
    ensures Total(DropBytes(l, m)) == Total(l) - m
    ensures DropBytes(DropBytes(l, m), n) == DropBytes(l, m + n)
    decreases |l|
  {
    DropTotal(l, m);
    if m != 0 && n != 0 {
      if m < l[0].len {
        assert ([Seg(l[0].addr + m, l[0].len - m)] + l[1..])[1..] == l[1..];
      } else {
        DropDrop(l[1..], m - l[0].len, n);
      }
    }
  }

  lemma {:induction false} DropAligned(l: seq<Seg>, n: nat)
    requires n <= Total(l) && PageAligned(l)
    ensures PageAligned(DropBytes(l, n))
    decreases |l|
  {
    if n != 0 {
      if n < l[0].len {
        assert ([Seg(l[0].addr + n, l[0].len - n)] + l[1..])[1..] == l[1..];
      } else {
        DropAligned(l[1..], n - l[0].len);
      }
    }
  }

  lemma AfterFirst(addr: nat, len: nat)
    ensures (addr + FirstLen(addr)) % PAGE == 0
    ensures len > 0 && (addr + len) % PAGE == 0 ==> len >= FirstLen(addr)
  {
  }

  /** Inside a page the data is contiguous. */
  lemma WithinPage(l: seq<Seg>, d: nat)
    requires l != [] && PageAligned(l) && d < FirstLen(l[0].addr) && d < Total(l)
    ensures ByteAddr(l, d) == l[0].addr + d
  {
    AfterFirst(l[0].addr, l[0].len);
  }

  lemma DropInside(l: seq<Seg>, n: nat)
    requires l != [] && 0 < n < l[0].len
    ensures n <= Total(l) && DropBytes(l, n) == [Seg(l[0].addr + n, l[0].len - n)] + l[1..]
  {
  }

  lemma DropFirst(l: seq<Seg>)
    requires l != [] && l[0].len > 0
    ensures l[0].len <= Total(l) && DropBytes(l, l[0].len) == l[1..]
  {
    assert DropBytes(l[1..], 0) == l[1..];
  }

  lemma FirstLenPositive(addr: nat)
    ensures 0 < FirstLen(addr) <= PAGE
  {
  }

  /** A segment with others behind it ends at the end of a page, so it fills its first page. */
  lemma FillsFirstPage(l: seq<Seg>)
    requires l != [] && PageAligned(l) && FirstLen(l[0].addr) < Total(l)
    ensures l[0].len >= FirstLen(l[0].addr) && l[0].len > 0 && (l[0].len == FirstLen(l[0].addr) ==> |l| > 1)
  {
    AfterFirst(l[0].addr, l[0].len);
  }

  /** What is left of the data after its first page. */
  lemma AfterFirstPage(l: seq<Seg>)
    requires l != [] && PageAligned(l) && FirstLen(l[0].addr) < Total(l)
    ensures var first, t := FirstLen(l[0].addr), DropBytes(l, FirstLen(l[0].addr));
      if l[0].len > first then t == [Seg(l[0].addr + first, l[0].len - first)] + l[1..]
      else l[0].len == first && |l| > 1 && t == l[1..]
  {
    FillsFirstPage(l);
    FirstLenPositive(l[0].addr);
    if l[0].len > FirstLen(l[0].addr) { DropInside(l, FirstLen(l[0].addr)); } else { DropFirst(l); }
  }

  /** The next page of the data begins where a page begins. */
  lemma NextPage(l: seq<Seg>)
    requires l != [] && PageAligned(l) && FirstLen(l[0].addr) < Total(l)
    ensures var t := DropBytes(l, FirstLen(l[0].addr));
      && t != [] && PageAligned(t) && t[0].addr % PAGE == 0
      && (if l[0].len > FirstLen(l[0].addr)
          then t == [Seg(l[0].addr + FirstLen(l[0].addr), l[0].len - FirstLen(l[0].addr))] + l[1..]
          else l[0].len == FirstLen(l[0].addr) && |l| > 1 && t == l[1..])
  {
    AfterFirstPage(l);
    DropAligned(l, FirstLen(l[0].addr));
    NextAddr(l, DropBytes(l, FirstLen(l[0].addr)), FirstLen(l[0].addr));
  }

  lemma NextAddr(l: seq<Seg>, t: seq<Seg>, first: nat)
    requires l != [] && PageAligned(l) && first == FirstLen(l[0].addr)
    requires if l[0].len > first then t == [Seg(l[0].addr + first, l[0].len - first)] + l[1..]
             else |l| > 1 && t == l[1..]
    ensures t != [] && t[0].addr % PAGE == 0
  {
    if l[0].len > first {
      AfterFirst(l[0].addr, l[0].len);
      assert t[0] == Seg(l[0].addr + first, l[0].len - first);
    } else {
      assert t[0] == l[1];
    }
  }

  // ----- The layout of a PRP list -----

  /** The entries of the pages of a list, one after the other. */
  function Flat(blocks: seq<seq<nat>>): seq<nat> {
    if blocks == [] then [] else blocks[0] + Flat(blocks[1..])
  }

  function Last<T>(s: seq<T>): T
    requires s != []
  {
    s[|s| - 1]
  }

  function Init<T>(s: seq<T>): seq<T>
    requires s != []
  {
    s[..|s| - 1]
  }

  /** Page j holds the entries blocks[j]. Every page but the last is full: `SLOTS - 1` entries and the
      address of the next page. The last page may use the slot of the link for an entry. */
  ghost predicate Filled(words: seq<seq<nat>>, dmas: seq<nat>, blocks: seq<seq<nat>>) {
    && |words| == |dmas| == |blocks| > 0
    && (forall j :: 0 <= j < |words| - 1 ==> |blocks[j]| == SLOTS - 1 && words[j] == blocks[j] + [dmas[j + 1]])
    && |Last(blocks)| <= |Last(words)| <= SLOTS && Last(words)[..|Last(blocks)|] == Last(blocks)
  }

  /** Writes slot `slot` of the last page. */
  function PutLast(words: seq<seq<nat>>, slot: nat, v: nat): seq<seq<nat>>
    requires words != [] && slot < |Last(words)|
  {
    Init(words) + [Last(words)[slot := v]]
  }

  function AddLast(blocks: seq<seq<nat>>, v: nat): seq<seq<nat>>
    requires blocks != []
  {
    Init(blocks) + [Last(blocks) + [v]]
  }

  lemma {:induction false} FlatAppend(a: seq<seq<nat>>, b: seq<nat>)
    ensures Flat(a + [b]) == Flat(a) + b
  {
    if a == [] {
      assert a + [b] == [b] && [b][1..] == [];
    } else {
      FlatAppend(a[1..], b);
      assert (a + [b])[1..] == a[1..] + [b];
    }
  }

  lemma PutFilled(words: seq<seq<nat>>, dmas: seq<nat>, blocks: seq<seq<nat>>, v: nat)
    requires Filled(words, dmas, blocks) && |Last(blocks)| < |Last(words)|
    ensures Filled(PutLast(words, |Last(blocks)|, v), dmas, AddLast(blocks, v))
    ensures Flat(AddLast(blocks, v)) == Flat(blocks) + [v]
  {
    var i := |Last(blocks)|;
    assert Last(words)[i := v][..i + 1] == Last(words)[..i] + [v];
    FlatAppend(Init(blocks), Last(blocks));
    FlatAppend(Init(blocks), Last(blocks) + [v]);
    assert blocks == Init(blocks) + [Last(blocks)];
  }

  /** The entries after the last one has moved to a page of its own. */
  function SplitLast(blocks: seq<seq<nat>>): seq<seq<nat>>
    requires blocks != [] && |Last(blocks)| == SLOTS
  {
    Init(blocks) + [Last(blocks)[..SLOTS - 1], [Last(blocks)[SLOTS - 1]]]
  }

  /** A full last page gives its last entry to the new page and links to it instead. */
  lemma ChainFilled(words: seq<seq<nat>>, dmas: seq<nat>, blocks: seq<seq<nat>>, page: seq<nat>, dma: nat)
    requires Filled(words, dmas, blocks) && |Last(blocks)| == SLOTS
    requires |page| == SLOTS && page[0] == Last(words)[SLOTS - 1]
    ensures Filled(PutLast(words, SLOTS - 1, dma) + [page], dmas + [dma], SplitLast(blocks))
    ensures Flat(SplitLast(blocks)) == Flat(blocks)
  {
    var full := Last(blocks);
    assert Last(words) == full;
    assert full[SLOTS - 1 := dma] == full[..SLOTS - 1] + [dma];
    assert page[..1] == [full[SLOTS - 1]];
    FlatAppend(Init(blocks), full);
    assert blocks == Init(blocks) + [full];
    FlatAppend(Init(blocks), full[..SLOTS - 1]);
    FlatAppend(Init(blocks) + [full[..SLOTS - 1]], [full[SLOTS - 1]]);
    assert SplitLast(blocks) == Init(blocks) + [full[..SLOTS - 1]] + [[full[SLOTS - 1]]];
    assert full == full[..SLOTS - 1] + [full[SLOTS - 1]];
  }

  /** How many entries the pages hold. */
  lemma {:induction false} FlatLength(words: seq<seq<nat>>, dmas: seq<nat>, blocks: seq<seq<nat>>)
    requires Filled(words, dmas, blocks)
    ensures |Flat(blocks)| == (SLOTS - 1) * (|blocks| - 1) + |Last(blocks)|
    decreases |words|
  {
    if |blocks| > 1 {
      FlatLength(words[1..], dmas[1..], blocks[1..]);
    } else {
      assert blocks[1..] == [];
    }
  }

  ghost predicate HoldsPage(mem: Memory, addr: nat, page: seq<nat>) {
    forall s :: 0 <= s < |page| ==> Word(mem, addr, s) == Some(page[s])
  }

  /** The pages of the list are where the controller looks for them. */
  ghost predicate Holds(mem: Memory, words: seq<seq<nat>>, dmas: seq<nat>) {
    |words| == |dmas| && forall j :: 0 <= j < |words| ==> HoldsPage(mem, dmas[j], words[j])
  }

  lemma {:induction false} ReadWordsGives(mem: Memory, addr: nat, page: seq<nat>, s: nat, n: nat)
    requires s + n <= |page| && HoldsPage(mem, addr, page)
    ensures ReadWords(mem, addr, s, n) == Some(page[s..s + n])
    decreases n
  {
    if n > 0 {
      assert Word(mem, addr, s) == Some(page[s]);
      ReadWordsGives(mem, addr, page, s + 1, n - 1);
      var rest := page[s + 1..s + 1 + (n - 1)];
      assert ReadWords(mem, addr, s + 1, n - 1) == Some(rest);
      assert page[s..s + n] == [page[s]] + rest;
    } else {
      assert page[s..s + n] == [];
    }
  }

  /** The controller reads back the entries of a list of full pages, over any number of links. */
  lemma {:induction false} ReadListGives(mem: Memory, words: seq<seq<nat>>, dmas: seq<nat>, blocks: seq<seq<nat>>)
    requires Filled(words, dmas, blocks) && Holds(mem, words, dmas) && |Last(blocks)| > 0
    requires |words| > 1 ==> |Last(blocks)| > 1
    requires forall j :: 0 <= j < |dmas| ==> dmas[j] % PAGE == 0
    ensures ReadList(mem, dmas[0], |Flat(blocks)|) == Some(Flat(blocks))
    decreases |words|
  {
    var n := |Flat(blocks)|;
    FlatLength(words, dmas, blocks);
    assert HoldsPage(mem, dmas[0], words[0]);
    if |words| == 1 {
      assert blocks[1..] == [] && Flat(blocks) == blocks[0];
      ReadWordsGives(mem, dmas[0], words[0], 0, n);
      assert words[0][0..n] == words[0][..n];
    } else {
      ReadWordsGives(mem, dmas[0], words[0], 0, SLOTS - 1);
      ReadListGives(mem, words[1..], dmas[1..], blocks[1..]);
      assert words[0][0..SLOTS - 1] == blocks[0];
      assert Word(mem, dmas[0], SLOTS - 1) == Some(dmas[1]);
    }
  }

  lemma SmallRoom(dma: nat)
    requires dma % 256 == 0
    ensures SLOTS - dma % PAGE / 8 >= SMALL
  {
    var k, j := dma / 256, dma / PAGE;
    assert dma == 256 * k && dma == PAGE * j + dma % PAGE;
    assert dma % PAGE == 256 * (k - 16 * j);
  }

  /** A list from the small pool lies within one page and needs no link. */
  lemma ReadSmallGives(mem: Memory, page: seq<nat>, dma: nat, n: nat)
    requires n <= SMALL <= |page| && HoldsPage(mem, dma, page) && dma % 256 == 0
    ensures ReadList(mem, dma, n) == Some(page[..n])
  {
    SmallRoom(dma);
    ReadWordsGives(mem, dma, page, 0, n);
    assert page[0..n] == page[..n];
  }
}
