/**
 nvme_pci_setup_prps and nvme_free_prps (daredevil/drivers/nvme/host/pci.c:614-773): the loop
 that fills the pages of a PRP list in place, and the chain walk that gives them back.
 The page pools are an environment: the address of each allocation, or its failure, is given.
*/
module PrpSetup {
  import opened Options
  import opened Prp

  datatype Status = StsOk | StsResource | StsIoErr

  /** The entries a list of n must hold. */
  ghost function Entries(l: seq<Seg>, n: nat): (es: seq<nat>)
    requires l != [] && (n > 0 ==> FirstLen(l[0].addr) + (n - 1) * PAGE < Total(l))
    ensures |es| == n
    ensures forall k :: 0 <= k < n ==> es[k] == Entry(l, k)
  {
    if n == 0 then [] else Entries(l, n - 1) + [Entry(l, n - 1)]
  }

  lemma NrPrpsFit(addr: nat, length: nat)
    ensures var n := NrPrps(addr, length);
      && (n > 0 ==> FirstLen(addr) + (n - 1) * PAGE < length)
      && length <= FirstLen(addr) + n * PAGE
  {
  }

  /** The first page of a list holds no entry yet. */
  lemma EmptyFilled(page: seq<nat>, dma: nat)
    requires |page| <= SLOTS
    ensures Filled([page], [dma], [[]]) && Flat([[]]) == []
  {
    assert Flat([[]]) == [] + Flat([]);
  }

  /** The loop ends after exactly as many entries as there are pages after the first. */
  lemma EntryCount(addr: nat, payload: nat, e: nat)
    requires e > 0 && payload - FirstLen(addr) - (e - 1) * PAGE > 0 >= payload - FirstLen(addr) - e * PAGE
    ensures e == NrPrps(addr, payload)
  {
  }

  /** What a successful setup leaves: the pointers of the command and the list they lead to. */
  ghost predicate Built(l: seq<Seg>, payload: nat, prp1: nat, prp2: nat,
                        words: seq<seq<nat>>, dmas: seq<nat>, blocks: seq<seq<nat>>)
    requires l != [] && payload <= Total(l)
  {
    var n := NrPrps(l[0].addr, payload);
    NrPrpsFit(l[0].addr, payload);
    && prp1 == l[0].addr
    && (n == 1 ==> prp2 == Entry(l, 0))
    && (n > 1 ==>
          && Filled(words, dmas, blocks) && Flat(blocks) == Entries(l, n) && prp2 == dmas[0]
          && (|words| > 1 ==> |Last(blocks)| > 1)
          && (if n <= SMALL then |words| == 1 && |words[0]| == SMALL && dmas[0] % 256 == 0
              else forall j :: 0 <= j < |dmas| ==> dmas[j] % PAGE == 0))
  }

  /** The main result about PRPs: a controller that walks PRP1, PRP2 and the chained list pages uses
      exactly the addresses of the scatter-gather list, byte for byte and in order. */
  lemma TransferFollowsSgl(l: seq<Seg>, payload: nat, prp1: nat, prp2: nat,
                           words: seq<seq<nat>>, dmas: seq<nat>, blocks: seq<seq<nat>>, mem: Memory)
    requires l != [] && PageAligned(l) && 0 < payload <= Total(l)
    requires Built(l, payload, prp1, prp2, words, dmas, blocks) && Holds(mem, words, dmas)
    ensures var r := ReadPrps(mem, prp1, prp2, payload);
      r.Some? && r.value != [] && |r.value| == 1 + NrPrps(prp1, payload) &&
      forall i :: 0 <= i < payload ==> PrpByteAddr(r.value, i) == Some(ByteAddr(l, i))
  {
    var n := NrPrps(l[0].addr, payload);
    NrPrpsFit(l[0].addr, payload);
    if n > 1 {
      if n <= SMALL {
        assert blocks[1..] == [] && Flat(blocks) == blocks[0];
        ReadSmallGives(mem, words[0], dmas[0], n);
      } else {
        FlatLength(words, dmas, blocks);
        ReadListGives(mem, words, dmas, blocks);
      }
    }
    var pages := ReadPrps(mem, prp1, prp2, payload).value;
    assert pages == [l[0].addr] + Entries(l, n);
    forall i | 0 <= i < payload ensures PrpByteAddr(pages, i) == Some(ByteAddr(l, i)) {
      PagesCover(l, n, pages, i);
    }
  }

  lemma PagesCover(l: seq<Seg>, n: nat, pages: seq<nat>, i: nat)
    requires l != [] && PageAligned(l) && i < Total(l) && i < FirstLen(l[0].addr) + n * PAGE
    requires n > 0 ==> FirstLen(l[0].addr) + (n - 1) * PAGE < Total(l)
    requires pages == [l[0].addr] + Entries(l, n)
    ensures PrpByteAddr(pages, i) == Some(ByteAddr(l, i))
  {
    var first := FirstLen(l[0].addr);
    if i < first {
      WithinPage(l, i);
    } else {
      var k, d := Split(i - first, n);
      PageOfEntry(l, k, d);
      assert pages[1 + k] == Entry(l, k);
    }
  }

  lemma Split(x: nat, n: nat) returns (k: nat, d: nat)
    requires x < n * PAGE
    ensures k == x / PAGE && d == x % PAGE && x == k * PAGE + d && k < n
  {
    k, d := x / PAGE, x % PAGE;
  }

  /** The page an entry points to holds the next bytes of the data. */
  lemma PageOfEntry(l: seq<Seg>, k: nat, d: nat)
    requires l != [] && PageAligned(l) && d < PAGE && FirstLen(l[0].addr) + k * PAGE + d < Total(l)
    ensures ByteAddr(l, FirstLen(l[0].addr) + k * PAGE + d) == Entry(l, k) + d
  {
    var first := FirstLen(l[0].addr);
    var pos := first + k * PAGE;
    DropAligned(l, pos);
    DropByteAddr(l, pos, d);
    DropByteAddr(l, pos, 0);
    EntryAligned(l, k);
    WithinPage(DropBytes(l, pos), d);
    WithinPage(DropBytes(l, pos), 0);
  }

  /** Every entry is the address of a page. */
  lemma {:induction false} EntryAligned(l: seq<Seg>, k: nat)
    requires l != [] && PageAligned(l) && FirstLen(l[0].addr) + k * PAGE < Total(l)
    ensures var t := DropBytes(l, FirstLen(l[0].addr) + k * PAGE);
      t != [] && PageAligned(t) && t[0].addr % PAGE == 0 && t[0].addr == Entry(l, k)
    decreases k
  {
    if k == 0 {
      NextPage(l);
    } else {
      EntryAligned(l, k - 1);
      PageAfter(l, FirstLen(l[0].addr) + (k - 1) * PAGE);
    }
    HeadAddr(l, FirstLen(l[0].addr) + k * PAGE);
  }

  lemma PageAfter(l: seq<Seg>, pos: nat)
    requires pos + PAGE < Total(l)
    requires var t := DropBytes(l, pos); t != [] && PageAligned(t) && t[0].addr % PAGE == 0
    ensures var t := DropBytes(l, pos + PAGE); t != [] && PageAligned(t) && t[0].addr % PAGE == 0
  {
    DropDrop(l, pos, PAGE);
    NextPage(DropBytes(l, pos));
  }

  lemma HeadAddr(l: seq<Seg>, pos: nat)
    requires pos < Total(l) && PageAligned(DropBytes(l, pos)) && DropBytes(l, pos) != []
    ensures DropBytes(l, pos)[0].addr == ByteAddr(l, pos)
  {
    DropByteAddr(l, pos, 0);
    WithinPage(DropBytes(l, pos), 0);
  }

  // ----- The size of nvme_pci_iod_list -----

  const MAX_BYTES := 4096 * 1024   // NVME_MAX_KB_SZ

  /** nvme_pci_npages_prp. */
  function NPagesPrp(): nat {
    DivRoundUp(8 * DivRoundUp(MAX_BYTES + PAGE, PAGE), PAGE - 8)
  }

  /** A list of n entries takes at most ceil(8n / (PAGE - 8)) pages, so the pages of the largest
      transfer fit the array the driver reserves for them. */
  lemma PagesFit(words: seq<seq<nat>>, dmas: seq<nat>, blocks: seq<seq<nat>>, addr: nat, payload: nat)
    requires Filled(words, dmas, blocks) && |Flat(blocks)| <= NrPrps(addr, payload)
    requires |words| > 1 ==> |Last(blocks)| > 0
    ensures |words| == 1 || |words| <= DivRoundUp(8 * NrPrps(addr, payload), PAGE - 8)
    ensures payload <= MAX_BYTES ==> |words| <= NPagesPrp()
  {
    FlatLength(words, dmas, blocks);
    if |words| > 1 { PagesOf(NrPrps(addr, payload), |words|); }
    if payload <= MAX_BYTES { LargestList(addr, payload, |words|); }
  }

  lemma PagesOf(n: nat, k: nat)
    requires k > 0 && n >= (SLOTS - 1) * (k - 1) + 1
    ensures k <= DivRoundUp(8 * n, PAGE - 8)
  {
    AtLeast(8 * n + 4087, k);
  }

  lemma AtLeast(a: nat, k: nat)
    requires a >= 4088 * k
    ensures a / 4088 >= k
  {
  }

  lemma LargestList(addr: nat, payload: nat, k: nat)
    requires payload <= MAX_BYTES
    requires k <= 1 || NrPrps(addr, payload) >= (SLOTS - 1) * (k - 1) + 1
    ensures k <= NPagesPrp()
  {
    assert NPagesPrp() == 3;
    assert NrPrps(addr, payload) <= MAX_BYTES / PAGE;
  }

  /** Where the driver stands after e entries: the data not yet described begins a page. */
  ghost function Tail(l: seq<Seg>, e: nat): seq<Seg>
    requires l != [] && FirstLen(l[0].addr) + e * PAGE <= Total(l)
  {
    DropBytes(l, FirstLen(l[0].addr) + e * PAGE)
  }

  /** The step of the loop to the next page: sg_next is needed exactly when the segment is used up,
      and a segment never ends inside a page while data remains. */
  lemma NextTail(l: seq<Seg>, e: nat)
    requires l != [] && PageAligned(l) && FirstLen(l[0].addr) + (e + 1) * PAGE < Total(l)
    ensures var t := Tail(l, e);
      && t != [] && t[0].len >= PAGE && t[0].addr == Entry(l, e)
      && Tail(l, e + 1) ==
           (if t[0].len > PAGE then [Seg(t[0].addr + PAGE, t[0].len - PAGE)] + t[1..] else t[1..])
      && Tail(l, e + 1) != [] && Tail(l, e + 1)[0].len > 0
  {
    EntryAligned(l, e);
    EntryAligned(l, e + 1);
    DropDrop(l, FirstLen(l[0].addr) + e * PAGE, PAGE);
    NextPage(Tail(l, e));
  }

  /** The answers of a pool: addresses aligned to the size of its blocks, or failures. */
  predicate PoolAligned(pool: seq<Option<nat>>, align: nat)
    requires align > 0
  {
    forall d :: d in pool && d.Some? ==> d.value % align == 0
  }

  class Iod {
    var nrAllocations: int
    var firstDma: nat
    var list: seq<array<nat>>             // nvme_pci_iod_list
    var prp1: nat
    var prp2: nat
    var freed: seq<(array<nat>, nat)>     // the calls of dma_pool_free
    ghost var words: seq<seq<nat>>        // what the pages hold
    ghost var dmas: seq<nat>              // where the controller sees them
    ghost var blocks: seq<seq<nat>>       // the entries they carry

    ghost predicate Synced()
      reads this, list
    {
      && |list| == |words| == |dmas|
      && (forall j :: 0 <= j < |list| ==> list[j][..] == words[j])
      && (forall i, j :: 0 <= i < j < |list| ==> list[i] != list[j])
      && (|list| > 0 ==> firstDma == dmas[0])
    }

    /** What holds before each iteration of the loop of nvme_pci_setup_prps, after e entries. */
    ghost predicate Filling(l: seq<Seg>, payload: nat, e: nat, i: nat)
      requires l != [] && payload <= Total(l)
      reads this, list
    {
      var n := NrPrps(l[0].addr, payload);
      NrPrpsFit(l[0].addr, payload);
      && Synced() && Filled(words, dmas, blocks) && i == |Last(blocks)| && e <= n
      && |Flat(blocks)| == e && Flat(blocks) == Entries(l, e)
      && (if n <= SMALL then |words| == 1 && |words[0]| == SMALL && dmas[0] % 256 == 0 && nrAllocations == 0
          else (forall j :: 0 <= j < |dmas| ==> dmas[j] % PAGE == 0 && |words[j]| == SLOTS) && nrAllocations == |list|)
    }

    /** One entry goes into the last page. */
    method PutEntry(l: seq<Seg>, payload: nat, ghost e: nat, i: nat, v: nat)
      requires l != [] && payload <= Total(l) && Filling(l, payload, e, i)
      requires e < NrPrps(l[0].addr, payload) && i < SLOTS
      requires (NrPrpsFit(l[0].addr, payload); v == Entry(l, e))
      modifies this`words, this`blocks, list[|list| - 1]
      ensures Filling(l, payload, e + 1, i + 1)
    {
      NrPrpsFit(l[0].addr, payload);
      FlatLength(words, dmas, blocks);
      PutFilled(words, dmas, blocks, v);
      Put(i, v);
      blocks := AddLast(blocks, v);
    }

    /** nvme_free_prps: every page goes back once, under the address it was allocated at, which
        the walk finds in the last slot of the page before it. */
    method FreePrps()
      requires Synced() && 0 <= nrAllocations == |list|
      requires forall j :: 0 <= j < |words| ==> |words[j]| == SLOTS
      requires forall j :: 0 <= j < |words| - 1 ==> words[j][SLOTS - 1] == dmas[j + 1]
      modifies this`freed
      ensures freed == old(freed) + FreedPages(list, dmas)
    {
      var dmaAddr := firstDma;
      var i := 0;
      while i < nrAllocations
        invariant 0 <= i <= nrAllocations
        invariant i < nrAllocations ==> dmaAddr == dmas[i]
        invariant freed == old(freed) + FreedPages(list[..i], dmas[..i])
      {
        var prpList := list[i];
        assert prpList[..] == words[i];
        var nextDmaAddr := prpList[SLOTS - 1];
        freed := freed + [(prpList, dmaAddr)];
        assert list[..i + 1] == list[..i] + [list[i]] && dmas[..i + 1] == dmas[..i] + [dmas[i]];
        dmaAddr := nextDmaAddr;
        i := i + 1;
      }
      assert list[..i] == list && dmas[..i] == dmas;
    }

    /** What nvme_unmap_data finds after a successful setup: no list, one small list, or a chain of
        pages, told apart by nr_allocations. */
    ghost predicate Mapped()
      reads this, list
    {
      && Synced()
      && (nrAllocations == -1 ==> list == [])
      && (nrAllocations == 0 ==> |list| == 1)
      && (nrAllocations != -1 && nrAllocations != 0 ==>
            && nrAllocations == |list|
            && (forall j :: 0 <= j < |words| ==> |words[j]| == SLOTS)
            && (forall j :: 0 <= j < |words| - 1 ==> words[j][SLOTS - 1] == dmas[j + 1]))
    }

    /** nvme_unmap_data for a request with a PRP list: gives back exactly the pages of the list. */
    method UnmapData()
      requires Mapped()
      modifies this`freed
      ensures freed == old(freed) + FreedPages(list, dmas)
    {
      if nrAllocations == 0 {
        freed := freed + [(list[0], firstDma)];
      } else if nrAllocations == -1 {
        // the loop of nvme_free_prps does not run
      } else {
        FreePrps();
      }
    }

    /** A new page joins the list. */
    method AddPage(prpList: array<nat>, ghost prpDma: nat)
      requires Synced() && prpList !in list && (list == [] ==> firstDma == prpDma)
      modifies this`list, this`words, this`dmas
      ensures Synced() && list == old(list) + [prpList]
      ensures words == old(words) + [prpList[..]] && dmas == old(dmas) + [prpDma]
    {
      list := list + [prpList];
      words := words + [prpList[..]];
      dmas := dmas + [prpDma];
    }

    /** prp_list[slot] = v in the last page. */
    method Put(slot: nat, v: nat)
      requires Synced() && list != [] && slot < |Last(words)|
      modifies this`words, list[|list| - 1]
      ensures Synced() && words == PutLast(old(words), slot, v)
    {
      var prpList := list[|list| - 1];
      prpList[slot] := v;
      words := PutLast(words, slot, v);
    }

    /** The last entry of a full page moves to the new page and the address of that takes its place. */
    method Link(prpList: array<nat>, dma: nat)
      requires Synced() && list != [] && |Last(words)| == SLOTS && prpList !in list && prpList.Length == SLOTS
      requires prpList[0] == Last(words)[SLOTS - 1]
      modifies this`list, this`words, this`dmas, list[|list| - 1]
      ensures Synced() && list == old(list) + [prpList] && dmas == old(dmas) + [dma]
      ensures words == PutLast(old(words), SLOTS - 1, dma) + [old(prpList[..])]
    {
      Put(SLOTS - 1, dma);
      AddPage(prpList, dma);
    }

    /** A new page that begins with the last entry of the full one. */
    method NewPage() returns (prpList: array<nat>)
      requires Synced() && list != [] && |Last(words)| == SLOTS
      ensures fresh(prpList) && prpList.Length == SLOTS && prpList[0] == Last(words)[SLOTS - 1]
    {
      var oldPrpList := list[|list| - 1];
      assert oldPrpList[..] == Last(words);
      prpList := new nat[SLOTS];
      prpList[0] := oldPrpList[SLOTS - 1];
    }

    /** The list outgrows its last page. */
    method ChainPage(ghost l: seq<Seg>, ghost payload: nat, ghost e: nat, dma: nat)
      requires l != [] && payload <= Total(l) && Filling(l, payload, e, SLOTS) && NrPrps(l[0].addr, payload) > SMALL
      requires dma % PAGE == 0
      modifies this`nrAllocations, this`list, this`words, this`dmas, this`blocks, list[|list| - 1]
      ensures Filling(l, payload, e, 1) && |words| > 1
      ensures list[..|list| - 1] == old(list) && fresh(list[|list| - 1])
    {
      var prpList := NewPage();
      ChainFilled(words, dmas, blocks, prpList[..], dma);
      nrAllocations := nrAllocations + 1;
      Link(prpList, dma);
      blocks := SplitLast(blocks);
    }

    /** A slot for the next entry: in a new page if the last one is full. On an allocation failure
        all pages are given back. */
    method MakeRoom(l: seq<Seg>, payload: nat, ghost e: nat, i: nat, pool: seq<Option<nat>>)
      returns (ok: bool, slot: nat, answers: seq<Option<nat>>)
      requires l != [] && payload <= Total(l) && Filling(l, payload, e, i) && e < NrPrps(l[0].addr, payload)
      requires |words| > 1 ==> i > 1
      requires PoolAligned(pool, PAGE) && freed == []
      modifies this`nrAllocations, this`list, this`words, this`dmas, this`blocks, this`freed, list[|list| - 1]
      ensures PoolAligned(answers, PAGE)
      ensures ok ==> Filling(l, payload, e, slot) && slot < SLOTS && freed == [] && (|words| > 1 ==> slot > 0)
      ensures ok ==> list == old(list) || (list[..|list| - 1] == old(list) && fresh(list[|list| - 1]))
      ensures !ok ==> Synced() && list == old(list) && freed == FreedPages(list, dmas)
      ensures !ok ==> (payload <= MAX_BYTES ==> |list| <= NPagesPrp())
    {
      answers, slot := pool, i;
      if i == SLOTS {
        FlatLength(words, dmas, blocks);
        if pool == [] || pool[0] == None {
          NrPrpsFit(l[0].addr, payload);
          PagesFit(words, dmas, blocks, l[0].addr, payload);
          FreePrps();
          return false, 0, pool;
        }
        answers, slot := pool[1..], 1;
        ChainPage(l, payload, e, pool[0].value);
      }
      ok := true;
    }

    /** The next entry goes into the list, in a new page if need be. */
    method PlaceEntry(l: seq<Seg>, payload: nat, ghost e: nat, i: nat, v: nat, pool: seq<Option<nat>>)
      returns (ok: bool, slot: nat, answers: seq<Option<nat>>)
      requires l != [] && payload <= Total(l) && Filling(l, payload, e, i) && e < NrPrps(l[0].addr, payload)
      requires |words| > 1 ==> i > 1
      requires (NrPrpsFit(l[0].addr, payload); v == Entry(l, e))
      requires PoolAligned(pool, PAGE) && freed == []
      modifies this`nrAllocations, this`list, this`words, this`dmas, this`blocks, this`freed, list[|list| - 1]
      ensures PoolAligned(answers, PAGE)
      ensures ok ==> Filling(l, payload, e + 1, slot) && freed == [] && (|words| > 1 ==> slot > 1)
      ensures ok ==> list[|list| - 1] == old(list[|list| - 1]) || fresh(list[|list| - 1])
      ensures !ok ==> Synced() && freed == FreedPages(list, dmas)
      ensures !ok ==> (payload <= MAX_BYTES ==> |list| <= NPagesPrp())
    {
      ok, slot, answers := MakeRoom(l, payload, e, i, pool);
      if ok {
        PutEntry(l, payload, e, slot, v);
        slot := slot + 1;
      }
    }

    /** The body of the loop: an entry, and the step of the cursor to the next page of the data if
        any is left. */
    method AddEntry(l: seq<Seg>, payload: nat, ghost e: nat, i: nat, sg: Cursor, left: int, pool: seq<Option<nat>>)
      returns (ok: bool, slot: nat, next: Cursor, answers: seq<Option<nat>>)
      requires l != [] && PageAligned(l) && payload <= Total(l) && Filling(l, payload, e, i) && AtTail(l, e, sg)
      requires left == payload - FirstLen(l[0].addr) - (e + 1) * PAGE && left + PAGE > 0
      requires |words| > 1 ==> i > 1
      requires PoolAligned(pool, PAGE) && freed == []
      modifies this`nrAllocations, this`list, this`words, this`dmas, this`blocks, this`freed, list[|list| - 1]
      ensures PoolAligned(answers, PAGE)
      ensures ok ==> Filling(l, payload, e + 1, slot) && freed == [] && (|words| > 1 ==> slot > 1)
      ensures ok && left > 0 ==> AtTail(l, e + 1, next)
      ensures ok ==> list[|list| - 1] == old(list[|list| - 1]) || fresh(list[|list| - 1])
      ensures !ok ==> Synced() && freed == FreedPages(list, dmas)
      ensures !ok ==> (payload <= MAX_BYTES ==> |list| <= NPagesPrp())
    {
      NrPrpsFit(l[0].addr, payload);
      AtTailEntry(l, e, sg);
      next := sg;
      if left > 0 {
        next := NextSeg(l, e + 1, sg);
      }
      ok, slot, answers := PlaceEntry(l, payload, e, i, sg.dmaAddr, pool);
    }

    lemma FillingMapped(l: seq<Seg>, payload: nat, e: nat, i: nat)
      requires l != [] && payload <= Total(l) && Filling(l, payload, e, i)
      ensures Mapped()
    {
    }

    lemma FitsReserved(l: seq<Seg>, payload: nat, e: nat, i: nat)
      requires l != [] && payload <= MAX_BYTES && payload <= Total(l) && Filling(l, payload, e, i)
      requires |words| > 1 ==> i > 1
      ensures |list| <= NPagesPrp()
    {
      PagesFit(words, dmas, blocks, l[0].addr, payload);
    }

    /** The loop of nvme_pci_setup_prps. `pool` answers the page allocations that are still to come. */
    method FillList(l: seq<Seg>, payload: nat, pool: seq<Option<nat>>, start: Cursor)
      returns (status: Status, ghost i: nat)
      requires l != [] && PageAligned(l) && payload <= Total(l) && NrPrps(l[0].addr, payload) > 1
      requires Filling(l, payload, 0, 0) && AtTail(l, 0, start)
      requires PoolAligned(pool, PAGE) && freed == []
      modifies this`nrAllocations, this`list, this`words, this`dmas, this`blocks, this`freed, list[|list| - 1]
      ensures status == StsOk || status == StsResource
      ensures status == StsOk ==> freed == [] && Filling(l, payload, NrPrps(l[0].addr, payload), i)
      ensures status == StsOk ==> |words| > 1 ==> i > 1
      ensures status == StsResource ==> Synced() && freed == FreedPages(list, dmas)
      ensures status == StsResource && payload <= MAX_BYTES ==> |list| <= NPagesPrp()
    {
      var sg, slot, answers := start, 0, pool;
      var length: int := payload - FirstLen(l[0].addr);
      ghost var e, all := 0, length;
      while true
        invariant Filling(l, payload, e, slot) && (|words| > 1 ==> slot > 1)
        invariant length == all - e * PAGE && length > 0
        invariant AtTail(l, e, sg) && PoolAligned(answers, PAGE) && freed == []
        invariant list[|list| - 1] == old(list[|list| - 1]) || fresh(list[|list| - 1])
        decreases length
      {
        length := length - PAGE;
        var ok;
        ok, slot, sg, answers := AddEntry(l, payload, e, slot, sg, length, answers);
        if !ok {
          return StsResource, 0;
        }
        e := e + 1;
        if length <= 0 {
          EntryCount(l[0].addr, payload, e);
          return StsOk, slot;
        }
      }
    }

    /** The first page of the list, from the small pool if 32 entries are enough. */
    method StartList(ghost l: seq<Seg>, ghost payload: nat, nprps: nat, prpDma: nat)
      requires l != [] && payload <= Total(l) && nprps == NrPrps(l[0].addr, payload) > 1
      requires prpDma % (if nprps <= SMALL then 256 else PAGE) == 0
      modifies this`nrAllocations, this`firstDma, this`list, this`words, this`dmas, this`blocks
      ensures Filling(l, payload, 0, 0) && firstDma == prpDma && fresh(list[0]) && |list| == 1
    {
      NrPrpsFit(l[0].addr, payload);
      var prpList := new nat[if nprps <= SMALL then SMALL else SLOTS];
      nrAllocations := if nprps <= SMALL then 0 else 1;
      firstDma := prpDma;
      list, words, dmas, blocks := [], [], [], [[]];
      AddPage(prpList, prpDma);
      FirstPageFilling(l, payload, nprps, prpList[..], prpDma);
    }

    lemma FirstPageFilling(l: seq<Seg>, payload: nat, n: nat, page: seq<nat>, dma: nat)
      requires l != [] && payload <= Total(l) && n == NrPrps(l[0].addr, payload)
      requires Synced() && words == [page] && dmas == [dma] && blocks == [[]]
      requires if n <= SMALL then |page| == SMALL && dma % 256 == 0 && nrAllocations == 0
               else |page| == SLOTS && dma % PAGE == 0 && nrAllocations == 1
      ensures Filling(l, payload, 0, 0)
    {
      NrPrpsFit(l[0].addr, payload);
      EmptyFilled(page, dma);
      assert Entries(l, 0) == [];
    }

    /** The part of nvme_pci_setup_prps for more than one entry. */
    method BuildList(l: seq<Seg>, payload: nat, pool: seq<Option<nat>>, length: nat, sg: Cursor)
      returns (status: Status)
      requires l != [] && PageAligned(l) && payload <= Total(l) && freed == [] && list == [] && dmas == []
      requires length == payload - FirstLen(l[0].addr) > PAGE && AtTail(l, 0, sg)
      requires PoolAligned(pool, if NrPrps(l[0].addr, payload) <= SMALL then 256 else PAGE)
      modifies this
      ensures status == StsOk || status == StsResource
      ensures status == StsOk ==> Mapped() && freed == [] && Built(l, payload, l[0].addr, firstDma, words, dmas, blocks)
      ensures status == StsResource ==> |list| == |dmas| && freed == FreedPages(list, dmas)
      ensures payload <= MAX_BYTES ==> |list| <= NPagesPrp()
    {
      var nprps := DivRoundUp(length, PAGE);
      if pool == [] || pool[0] == None {
        nrAllocations := -1;
        return StsResource;
      }
      StartList(l, payload, nprps, pool[0].value);
      ghost var i;
      // the small pool is asked once
      status, i := FillList(l, payload, if nprps <= SMALL then [] else pool[1..], sg);
      if status == StsOk {
        FillingMapped(l, payload, nprps, i);
        if payload <= MAX_BYTES { FitsReserved(l, payload, nprps, i); }
      }
    }

    /** nvme_pci_setup_prps. On success the command's pointers lead to the list TransferFollowsSgl
        speaks about; on failure every list page has been given back. */
    method SetupPrps(l: seq<Seg>, payload: nat, pool: seq<Option<nat>>) returns (status: Status)
      requires l != [] && PageAligned(l) && 0 < payload <= Total(l)
      requires PoolAligned(pool, if NrPrps(l[0].addr, payload) <= SMALL then 256 else PAGE)
      requires freed == [] && nrAllocations == -1   // as nvme_prep_rq leaves them
      modifies this
      ensures status == StsOk || status == StsResource
      ensures status == StsOk ==> Mapped() && freed == [] && Built(l, payload, prp1, prp2, words, dmas, blocks)
      ensures status == StsResource ==> |list| == |dmas| && freed == FreedPages(list, dmas)
      ensures payload <= MAX_BYTES ==> |list| <= NPagesPrp()
    {
      list, words, dmas, blocks := [], [], [], [];
      var length: int := payload - FirstLen(l[0].addr);
      if length <= 0 {
        firstDma := 0;
      } else {
        var sg := FirstCursor(l);
        AtTailEntry(l, 0, sg);
        if length <= PAGE {
          firstDma := sg.dmaAddr;
        } else {
          status := BuildList(l, payload, pool, length, sg);
          if status != StsOk {
            return;
          }
        }
      }
      prp1, prp2 := l[0].addr, firstDma;
      status := StsOk;
    }
  }

  /** The data after the first page. */
  method FirstCursor(l: seq<Seg>) returns (c: Cursor)
    requires l != [] && PageAligned(l) && FirstLen(l[0].addr) < Total(l)
    ensures AtTail(l, 0, c)
  {
    NextPage(l);
    EntryAligned(l, 0);
    var first := FirstLen(l[0].addr);
    if l[0].len != first {
      return Cursor(l, l[0].addr + first, l[0].len - first);
    }
    c := Cursor(l[1..], l[1].addr, l[1].len);
    assert [Seg(c.dmaAddr, c.dmaLen)] + c.sg[1..] == l[1..];
  }

  /** The driver's cursor into the scatter-gather list: the segments from sg on, of which the first
      has dmaLen bytes left, at dmaAddr. */
  datatype Cursor = Cursor(sg: seq<Seg>, dmaAddr: nat, dmaLen: nat)

  /** The cursor stands where entry e belongs. */
  ghost predicate AtTail(l: seq<Seg>, e: nat, c: Cursor)
    requires l != []
  {
    && c.sg != [] && c.dmaLen > 0 && FirstLen(l[0].addr) + e * PAGE < Total(l)
    && [Seg(c.dmaAddr, c.dmaLen)] + c.sg[1..] == Tail(l, e)
  }

  lemma AtTailEntry(l: seq<Seg>, e: nat, c: Cursor)
    requires l != [] && PageAligned(l) && AtTail(l, e, c)
    ensures c.dmaAddr == Entry(l, e)
  {
    EntryAligned(l, e);
  }

  /** The cursor moves on by one page. A segment that ends inside a page while data remains
      (bad_sgl in the source) does not occur. */
  method NextSeg(ghost l: seq<Seg>, ghost e: nat, c: Cursor) returns (next: Cursor)
    requires l != [] && PageAligned(l) && e > 0 && FirstLen(l[0].addr) + e * PAGE < Total(l)
    requires AtTail(l, e - 1, c)
    ensures AtTail(l, e, next)
  {
    NextTail(l, e - 1);
    if c.dmaLen > PAGE {
      return c.(dmaAddr := c.dmaAddr + PAGE, dmaLen := c.dmaLen - PAGE);
    }
    if c.dmaLen < PAGE {
      assert false;   // bad_sgl
    }
    var sg := c.sg[1..];
    next := Cursor(sg, sg[0].addr, sg[0].len);
    assert [Seg(next.dmaAddr, next.dmaLen)] + next.sg[1..] == sg;
  }

  ghost function FreedPages(list: seq<array<nat>>, dmas: seq<nat>): seq<(array<nat>, nat)>
    requires |list| == |dmas|
  {
    seq(|list|, j requires 0 <= j < |list| => (list[j], dmas[j]))
  }
}
