/** kernel/kalloc.c: the free list threaded through the free pages themselves, and its counter. */
module PageAlloc {
  import opened Base
  import opened PageTable

  const PGSIZE: nat := 4096

  /** Physical memory and `kmem`. A page pointer is the page's address, and 0 is null. */
  datatype Kmem = Kmem(mem: Mem, freelist: nat, nfree: nat)

  function Junk(w: nat): Page {
    seq(ENTRIES, _ => w)
  }

  /** The list that starts at address `head` goes through the pages `free` and ends in null. */
  ghost predicate Chain(mem: Mem, head: nat, free: seq<nat>)
    decreases |free|
  {
    if free == [] then head == 0
    else
      && head == free[0] * PGSIZE && free[0] in mem && |mem[free[0]]| == ENTRIES
      && Chain(mem, mem[free[0]][0], free[1..])
  }

  /** Pages `lo` to `hi` (from `end` to PHYSTOP) are managed; `free` lists the free ones. */
  ghost predicate FreeOk(k: Kmem, free: seq<nat>, lo: nat, hi: nat) {
    && 0 < lo
    && Chain(k.mem, k.freelist, free)
    && k.nfree == |free|
    && (forall i :: 0 <= i < |free| ==> lo <= free[i] < hi)
    && (forall i, j :: 0 <= i < j < |free| ==> free[i] != free[j])
  }

  lemma {:induction false} ChainFrame(mem: Mem, mem': Mem, head: nat, free: seq<nat>)
    requires Chain(mem, head, free)
    requires forall p :: p in free ==> p in mem' && p in mem && mem'[p] == mem[p]
    ensures Chain(mem', head, free)
    decreases |free|
  {
    if free != [] {
      ChainFrame(mem, mem', mem[free[0]][0], free[1..]);
    }
  }

  lemma {:induction false} ChainInMem(mem: Mem, head: nat, free: seq<nat>)
    requires Chain(mem, head, free)
    ensures forall p :: p in free ==> p in mem && |mem[p]| == ENTRIES
    decreases |free|
  {
    if free != [] { ChainInMem(mem, mem[free[0]][0], free[1..]); }
  }

  /** The first free page. */
  lemma ChainHead(k: Kmem, free: seq<nat>, lo: nat, hi: nat)
    requires FreeOk(k, free, lo, hi)
    ensures k.freelist == 0 <==> free == []
    ensures free != [] ==> k.freelist / PGSIZE == free[0] && free[0] in k.mem && |k.mem[free[0]]| == ENTRIES
  {
  }

  /** kalloc. */
  function Alloc(k: Kmem): (r: (Kmem, Option<nat>))
    requires k.freelist != 0 ==> k.freelist / PGSIZE in k.mem && |k.mem[k.freelist / PGSIZE]| > 0
  {
    if k.freelist == 0 then (k, None)
    else
      var page := k.freelist / PGSIZE;
      var n := if k.nfree > 0 then k.nfree - 1 else 0;
      (Kmem(k.mem[page := Junk(0x0505050505050505)], k.mem[page][0], n), Some(page))
  }

  /** kfree of a page in the managed range. */
  function Free(k: Kmem, page: nat): Kmem {
    var p: Page := Junk(0x0101010101010101)[0 := k.freelist];
    Kmem(k.mem[page := p], page * PGSIZE, k.nfree + 1)
  }

  lemma AllocOk(k: Kmem, free: seq<nat>, lo: nat, hi: nat)
    requires FreeOk(k, free, lo, hi) && free != []
    ensures k.freelist != 0 && k.freelist / PGSIZE in k.mem && |k.mem[k.freelist / PGSIZE]| == ENTRIES
    ensures var (k', r) := Alloc(k);
            && r == Some(free[0]) && FreeOk(k', free[1..], lo, hi)
            && k'.mem == k.mem[free[0] := Junk(0x0505050505050505)]
  {
    ChainHead(k, free, lo, hi);
    ChainInMem(k.mem, k.freelist, free);
    var (k', r) := Alloc(k);
    ChainFrame(k.mem, k'.mem, k.mem[free[0]][0], free[1..]);
  }

  lemma FreeKeepsOk(k: Kmem, free: seq<nat>, lo: nat, hi: nat, page: nat)
    requires FreeOk(k, free, lo, hi) && lo <= page < hi && page !in free
    ensures FreeOk(Free(k, page), [page] + free, lo, hi)
  {
    var k' := Free(k, page);
    ChainInMem(k.mem, k.freelist, free);
    ChainFrame(k.mem, k'.mem, k.freelist, free);
    assert ([page] + free)[1..] == free;
  }

  /** Changing pages that are not free does not disturb the list. */
  lemma FreeFrame(k: Kmem, mem': Mem, free: seq<nat>, lo: nat, hi: nat)
    requires FreeOk(k, free, lo, hi)
    requires forall p :: p in free && p in k.mem ==> p in mem' && mem'[p] == k.mem[p]
    ensures FreeOk(k.(mem := mem'), free, lo, hi)
  {
    ChainInMem(k.mem, k.freelist, free);
    ChainFrame(k.mem, mem', k.freelist, free);
  }

  function Pages(free: seq<nat>): set<nat> {
    set p | p in free
  }

  /** freerange: every whole page of a range that is not yet free goes onto the list once. */
  method Freerange(k: Kmem, paStart: nat, paEnd: nat, lo: nat, hi: nat) returns (r: Kmem, free: seq<nat>)
    requires FreeOk(k, [], lo, hi) && lo * PGSIZE <= paStart && paEnd <= hi * PGSIZE
    ensures FreeOk(r, free, lo, hi)
    ensures forall p :: p in free <==> paStart <= p * PGSIZE && (p + 1) * PGSIZE <= paEnd
    ensures r.nfree == |free|
  {
    r, free := k, [];
    var p := (paStart + PGSIZE - 1) / PGSIZE;
    ghost var first := p;
    while (p + 1) * PGSIZE <= paEnd
      invariant first <= p && FreeOk(r, free, lo, hi)
      invariant forall q :: q in free <==> first <= q < p
      invariant first < p ==> p * PGSIZE <= paEnd
      decreases paEnd - p * PGSIZE
    {
      FreeKeepsOk(r, free, lo, hi, p);
      r, free := Free(r, p), [p] + free;
      p := p + 1;
    }
  }
}
