/** kernel/vm.c: page tables changed in place, with pages taken from and given back to the
    allocator. */
module VmCode {
  import opened Base
  import opened PageTable
  import opened PageAlloc

  const MAXVA: nat := 0x40_0000_0000

  /** A page table lies in managed pages that are not free. */
  ghost predicate SpaceOk(mem: Mem, t: Tabs, free: seq<nat>, lo: nat, hi: nat) {
    TreeOk(mem, t) && forall k :: k in t ==> lo <= t[k] < hi && t[k] !in free
  }

  /** `u` has the tables of `t`, at the same pages, and perhaps more. */
  ghost predicate Extends(t: Tabs, u: Tabs) {
    forall k :: k in t ==> k in u && u[k] == t[k]
  }

  /** Nothing but free pages and pages of `t` differs between the two memories. */
  ghost predicate Untouched(mem: Mem, mem': Mem, t: Tabs, free: seq<nat>) {
    forall p :: p in mem && p !in free && p !in t.Values ==> p in mem' && mem'[p] == mem[p]
  }

  ghost predicate SameMap(mem: Mem, t: Tabs, mem': Mem, u: Tabs)
    requires PagesOk(mem, t) && PagesOk(mem', u)
  {
    forall v: nat :: Lookup(mem', u, v) == Lookup(mem, t, v)
  }

  lemma NewValue(t: Tabs, c: Label, page: nat)
    requires c !in t
    ensures t[c := page].Values == t.Values + {page}
  {
    var u := t[c := page];
    forall p | p in t.Values + {page} ensures p in u.Values {
      if p == page { assert u[c] == page; } else {
        var k :| k in t && t[k] == p;
        assert u[k] == p;
      }
    }
  }

  lemma TreePages(mem: Mem, t: Tabs, k: Label)
    requires TreeOk(mem, t) && k in t
    ensures PagesOk(mem, t) && t[k] in mem && |mem[t[k]]| == ENTRIES
  {
  }

  /** walk's allocation, once kalloc has taken the first free page: memset and the store of the
      pointer. */
  lemma GrowOk(mem: Mem, k1: Kmem, free: seq<nat>, lo: nat, hi: nat, t: Tabs, at: Label, i: nat)
    requires free != [] && FreeOk(k1, free[1..], lo, hi) && lo <= free[0] < hi && free[0] !in free[1..]
    requires SpaceOk(mem, t, free, lo, hi) && k1.mem == mem[free[0] := Junk(0x0505050505050505)]
    requires at in t && 0 < at.level && i < ENTRIES && Child(at, i) !in t
    ensures t[at] in mem && |mem[t[at]]| == ENTRIES && t[at] != free[0]
    ensures var page := free[0];
            var mem' := Store(k1.mem[page := Zeros()], t[at], i, MakePte(page, 0));
            var u := t[Child(at, i) := page];
            && FreeOk(k1.(mem := mem'), free[1..], lo, hi) && SpaceOk(mem', u, free[1..], lo, hi)
            && PagesOk(mem, t) && PagesOk(mem', u) && SameMap(mem, t, mem', u) && Extends(t, u)
            && Untouched(mem, mem', t, free)
            && Pages(free[1..]) + u.Values == Pages(free) + t.Values
  {
    TreePages(mem, t, at);
    hide TreeOk, FreeOk, Lookup, LabelsOk, Injective;
    var page := free[0];
    var mem' := Store(k1.mem[page := Zeros()], t[at], i, MakePte(page, 0));
    var u := t[Child(at, i) := page];
    assert k1.mem[page := Zeros()] == mem[page := Zeros()];
    AddTable(mem, t, at, i, page);
    TreePages(mem', u, at);
    FreeFrame(k1, mem', free[1..], lo, hi);
    NewValue(t, Child(at, i), page);
    assert Pages(free) == Pages(free[1..]) + {page};
  }

  lemma FreeDistinct(k: Kmem, free: seq<nat>, lo: nat, hi: nat)
    requires FreeOk(k, free, lo, hi) && free != []
    ensures lo <= free[0] < hi && free[0] !in free[1..]
  {
  }

  class Vm {
    const lo: nat
    const hi: nat
    var k: Kmem
    ghost var free: seq<nat>

    ghost predicate Valid()
      reads this
    {
      FreeOk(k, free, lo, hi)
    }

    ghost predicate Space(t: Tabs)
      reads this
    {
      SpaceOk(k.mem, t, free, lo, hi)
    }

    /** kinit: the managed pages, all of them free. */
    constructor (lo: nat, hi: nat)
      requires 0 < lo <= hi
      ensures Valid() && this.lo == lo && this.hi == hi && forall p :: p in free <==> lo <= p < hi
    {
      this.lo, this.hi := lo, hi;
      k, free := Kmem(map[], 0, 0), [];
      new;
      var k', all := Freerange(k, lo * 4096, hi * 4096, lo, hi);
      k, free := k', all;
    }

    method Kalloc() returns (r: Option<nat>)
      requires Valid()
      modifies this
      ensures Valid() && (r.None? <==> old(free) == [])
      ensures r.None? ==> k == old(k) && free == old(free)
      ensures r.Some? ==> r.value == old(free)[0] && free == old(free)[1..] && lo <= r.value < hi && r.value !in free
                          && k.mem == old(k.mem)[r.value := Junk(0x0505050505050505)]
    {
      ChainHead(k, free, lo, hi);
      if k.freelist == 0 {
        return None;
      }
      AllocOk(k, free, lo, hi);
      free := free[1..];
      var (k', p) := Alloc(k);
      k, r := k', p;
    }

    method Kfree(page: nat)
      requires Valid() && lo <= page < hi && page !in free
      modifies this
      ensures Valid() && free == [page] + old(free)
      ensures forall p :: p != page ==> (p in k.mem <==> p in old(k.mem)) && (p in k.mem ==> k.mem[p] == old(k.mem)[p])
    {
      FreeKeepsOk(k, free, lo, hi, page);
      k, free := Free(k, page), [page] + free;
    }

    /** walk: the slot of a virtual page in its leaf table, creating the tables on the way if
        `alloc` is set. */
    method Walk(root: nat, va: nat, alloc: bool, ghost t: Tabs) returns (slot: Option<(nat, nat)>, ghost u: Tabs)
      requires Valid() && Space(t) && t[Root] == root && va < MAXVA
      modifies this
      ensures Valid() && Space(u) && Extends(t, u) && Root in u && PagesOk(old(k.mem), t) && PagesOk(k.mem, u)
      ensures SameMap(old(k.mem), t, k.mem, u)
      ensures Pages(free) + u.Values == Pages(old(free)) + t.Values
      ensures Untouched(old(k.mem), k.mem, t, old(free))
      ensures slot.Some? ==> PathLabel(0, va / 4096) in u
                             && slot.value == (u[PathLabel(0, va / 4096)], Index(0, va / 4096))
      ensures slot.None? ==> PathLabel(0, va / 4096) !in u && (alloc ==> free == [] && |old(free)| <= 1)
      ensures !alloc ==> k == old(k) && u == t && free == old(free)
      ensures |old(free)| <= |free| + 2
    {
      hide TreeOk, FreeOk, Lookup, LabelsOk, Injective, MakePte, EntryOk;
      var vpn := va / 4096;
      var page, level := root, 2;
      u := t;
      RootFacts(k.mem, t);
      while level > 0
        invariant level <= 2 && Valid() && Space(u) && Extends(t, u)
        invariant PagesOk(old(k.mem), t) && PagesOk(k.mem, u) && SameMap(old(k.mem), t, k.mem, u)
        invariant Pages(free) + u.Values == Pages(old(free)) + t.Values
        invariant Untouched(old(k.mem), k.mem, t, old(free))
        invariant PathLabel(level, vpn) in u && page == u[PathLabel(level, vpn)]
        invariant !alloc ==> k == old(k) && u == t && free == old(free)
        invariant |old(free)| + level <= |free| + 2
      {
        var i := Index(level, vpn);
        ghost var at := PathLabel(level, vpn);
        StepFacts(k.mem, u, level, vpn);
        var pte := k.mem[page][i];
        if PageTable.Valid(pte) {
          page := Ppn(pte);
        } else {
          if !alloc {
            return None, u;
          }
          ChainHead(k, free, lo, hi);
          if k.freelist == 0 {
            return None, u;
          }
          page := Grow(page, i, at, u);
          u := u[Child(at, i) := page];
        }
        level := level - 1;
      }
      slot := Some((page, Index(0, vpn)));
    }

    /** One leaf entry written through the slot that walk returned. */
    method SetPte(slot: (nat, nat), pte: nat, vpn: nat, ghost u: Tabs)
      requires Valid() && Space(u) && PathLabel(0, vpn) in u
      requires slot == (u[PathLabel(0, vpn)], Index(0, vpn))
      modifies this
      ensures Valid() && free == old(free) && Space(u) && PagesOk(old(k.mem), u) && PagesOk(k.mem, u)
      ensures forall v: nat :: Lookup(k.mem, u, v) ==
                          if v != vpn then Lookup(old(k.mem), u, v)
                          else if PageTable.Valid(pte) then Some(pte) else None
      ensures forall p :: p !in u.Values && p in old(k.mem) ==> p in k.mem && k.mem[p] == old(k.mem)[p]
    {
      TreePages(k.mem, u, PathLabel(0, vpn));
      hide TreeOk, FreeOk, Lookup, LabelsOk, Injective;
      SetLeaf(k.mem, u, vpn, pte);
      ghost var mem' := Store(k.mem, slot.0, slot.1, pte);
      TreePages(mem', u, PathLabel(0, vpn));
      FreeFrame(k, mem', free, lo, hi);
      k := k.(mem := Store(k.mem, slot.0, slot.1, pte));
    }

    /** mappages: a run of virtual pages onto a run of physical pages. When a table cannot be
        allocated the run stays mapped up to that point. */
    method Mappages(root: nat, va: nat, size: nat, pa: nat, perm: nat, ghost t: Tabs)
      returns (ok: bool, ghost u: Tabs, ghost done: nat)
      requires Valid() && Space(t) && t[Root] == root && PagesOk(k.mem, t) && perm < 1024
      requires va % 4096 == 0 && size % 4096 == 0 && size > 0 && va + size <= MAXVA
      requires Unmapped(k.mem, t, va / 4096, size / 4096)
      modifies this
      ensures Valid() && Space(u) && Extends(t, u) && PagesOk(old(k.mem), t) && PagesOk(k.mem, u)
      ensures done <= size / 4096 && (ok <==> done == size / 4096) &&
              (!ok ==> free == [] && |old(free)| < 2 * (size / 4096))
      ensures MappedRun(old(k.mem), t, k.mem, u, va / 4096, done, pa / 4096, perm)
      ensures Pages(free) + u.Values == Pages(old(free)) + t.Values
      ensures Untouched(old(k.mem), k.mem, t, old(free))
    {
      ok, u, done := MapRun(root, va, size, pa, perm, t, va / 4096, size / 4096, pa / 4096);
    }

    /** mappages's loop, for a run given in bytes and, in ghost form, in pages. */
    method MapRun(root: nat, va: nat, size: nat, pa: nat, perm: nat, ghost t: Tabs,
                  ghost first: nat, ghost total: nat, ghost page: nat)
      returns (ok: bool, ghost u: Tabs, ghost done: nat)
      requires Valid() && Space(t) && t[Root] == root && PagesOk(k.mem, t) && perm < 1024
      requires va == first * 4096 && size == total * 4096 && total > 0 && va + size <= MAXVA && page == pa / 4096
      requires Unmapped(k.mem, t, first, total)
      modifies this
      ensures Valid() && Space(u)
      ensures done <= total && (ok <==> done == total) && (!ok ==> free == [] && |old(free)| < 2 * total)
      ensures |old(free)| <= |free| + 2 * total
      ensures MapInv(old(k.mem), t, old(free), k.mem, u, free, first, done, page, perm)
    {
      hide TreeOk, FreeOk, SpaceOk, Lookup, PagesOk, MapInv, Unmapped, SetAt, MakePte, Untouched, Extends, Pages;
      MapStart(k.mem, t, free, lo, hi, first, page, perm);
      var a := va;
      var p := pa;
      u, done, ok := t, 0, true;
      while ok && a < va + size
        invariant done <= total && a == va + done * 4096 && p == pa + done * 4096
        invariant FreeOk(k, free, lo, hi) && SpaceOk(k.mem, u, free, lo, hi) && (!ok ==> free == [] && done < total)
        invariant if ok then |old(free)| <= |free| + 2 * done else |old(free)| < 2 * (done + 1)
        invariant MapInv(old(k.mem), t, old(free), k.mem, u, free, first, done, page, perm)
        decreases ok, total - done
      {
        ghost var mem0, u0, free0 := k.mem, u, free;
        PageOf(pa, done);
        MapReady(old(k.mem), t, old(free), k.mem, u, free, first, total, done, page, perm);
        ok, u := MapOne(root, a, p, perm, u0, first + done, page + done);
        MapNext(old(k.mem), t, old(free), mem0, u0, free0, k.mem, u, free, first, done, page, perm, ok);
        if ok {
          done := done + 1;
          a := a + 4096;
          p := p + 4096;
        }
      }
    }

    /** The body of mappages's loop. */
    method MapOne(root: nat, a: nat, pa: nat, perm: nat, ghost t: Tabs, ghost vpn: nat, ghost page: nat)
      returns (ok: bool, ghost u: Tabs)
      requires Valid() && Space(t) && t[Root] == root && PagesOk(k.mem, t) && perm < 1024
      requires a == vpn * 4096 < MAXVA && page == pa / 4096 && Lookup(k.mem, t, vpn).None?
      modifies this
      ensures Valid() && Space(u) && Extends(t, u) && Root in u && PagesOk(old(k.mem), t) && PagesOk(k.mem, u)
      ensures !ok ==> free == [] && |old(free)| <= 1
      ensures |old(free)| <= |free| + 2
      ensures SetAt(old(k.mem), t, k.mem, u, vpn, ok, page, perm)
      ensures Pages(free) + u.Values == Pages(old(free)) + t.Values
      ensures Untouched(old(k.mem), k.mem, t, old(free))
    {
      hide TreeOk, FreeOk, Lookup, PagesOk, MakePte, Pages;
      assert a / 4096 == vpn;
      var slot, u1 := Walk(root, a, true, t);
      u := u1;
      if slot.None? {
        return false, u;
      }
      ghost var mem1 := k.mem;
      SetPte(slot.value, MakePte(pa / 4096, perm), a / 4096, u);
      UntouchedWrite(old(k.mem), mem1, k.mem, t, u, old(free), free);
      ok := true;
    }

    /** uvmunmap: remove a run of mappings, and free the pages behind them if asked to. */
    method Uvmunmap(root: nat, va: nat, npages: nat, doFree: bool, ghost t: Tabs, ghost leaf: map<nat, nat>)
      requires Valid() && Space(t) && t[Root] == root && LeafOk(k.mem, t, free, leaf, lo, hi)
      requires va % 4096 == 0 && va + npages * 4096 <= MAXVA
      requires MappedLeaves(k.mem, t, va / 4096, npages) && OwnsRun(leaf, va / 4096, npages, doFree)
      modifies this
      ensures Valid() && Space(t)
      ensures UnmapInv(old(k.mem), t, old(free), leaf, k.mem, free, va / 4096, npages, doFree, lo, hi)
    {
      UnmapRun(root, va, npages, doFree, t, leaf, va / 4096);
    }

    /** uvmunmap's loop, with the first page number as a ghost. */
    method UnmapRun(root: nat, va: nat, npages: nat, doFree: bool, ghost t: Tabs, ghost leaf: map<nat, nat>,
                    ghost first: nat)
      requires Valid() && Space(t) && t[Root] == root && LeafOk(k.mem, t, free, leaf, lo, hi)
      requires va == first * 4096 && va + npages * 4096 <= MAXVA
      requires MappedLeaves(k.mem, t, first, npages) && OwnsRun(leaf, first, npages, doFree)
      modifies this
      ensures Valid() && Space(t)
      ensures UnmapInv(old(k.mem), t, old(free), leaf, k.mem, free, first, npages, doFree, lo, hi)
    {
      hide TreeOk, FreeOk, SpaceOk, Lookup, PagesOk, LeafOk, UnmapInv, UnmapStep, MappedLeaves, OwnsRun, DropRun;
      UnmapStart(k.mem, t, free, leaf, first, doFree, lo, hi);
      var a := va;
      ghost var n := 0;
      while a < va + npages * 4096
        invariant n <= npages && a == va + n * 4096
        invariant FreeOk(k, free, lo, hi) && SpaceOk(k.mem, t, free, lo, hi)
        invariant UnmapInv(old(k.mem), t, old(free), leaf, k.mem, free, first, n, doFree, lo, hi)
        decreases npages - n
      {
        ghost var mem0, free0 := k.mem, free;
        UnmapReady(old(k.mem), t, old(free), leaf, k.mem, free, first, n, npages, doFree, lo, hi);
        UnmapOne(root, a, doFree, t, DropRun(leaf, first, n, doFree), first + n);
        UnmapNext(old(k.mem), t, old(free), leaf, mem0, free0, k.mem, free, first, n, doFree, lo, hi);
        a := a + 4096;
        n := n + 1;
      }
    }

    /** The body of uvmunmap's loop. */
    method UnmapOne(root: nat, a: nat, doFree: bool, ghost t: Tabs, ghost leaf: map<nat, nat>, ghost vpn: nat)
      requires Valid() && Space(t) && t[Root] == root && LeafOk(k.mem, t, free, leaf, lo, hi)
      requires a == vpn * 4096 < MAXVA && (vpn in leaf <==> doFree)
      requires Lookup(k.mem, t, vpn).Some? && Flags(Lookup(k.mem, t, vpn).value) != 1
      modifies this
      ensures Valid() && Space(t)
      ensures UnmapStep(old(k.mem), t, old(free), leaf, k.mem, free, vpn, doFree, lo, hi)
    {
      ghost var page := if doFree then leaf[vpn] else 0;
      ghost var rest := if doFree then Drop(leaf, vpn) else leaf;
      assert a / 4096 == vpn;
      var slot, _ := Walk(root, a, false, t);
      LookupSlot(k.mem, t, vpn);
      if doFree {
        var pte := k.mem[slot.value.0][slot.value.1];
        FreeLeaf(Ppn(pte), t, leaf, vpn);
      }
      ghost var mem1 := k.mem;
      SetPte(slot.value, 0, a / 4096, t);
      UnmapStepOk(old(k.mem), t, old(free), leaf, mem1, k.mem, free, vpn, doFree, lo, hi);
    }

    /** kfree of the page behind a mapping. */
    method FreeLeaf(page: nat, ghost t: Tabs, ghost leaf: map<nat, nat>, ghost vpn: nat)
      requires Valid() && Space(t) && LeafOk(k.mem, t, free, leaf, lo, hi) && vpn in leaf && leaf[vpn] == page
      modifies this
      ensures Valid() && Space(t) && free == [page] + old(free)
      ensures PagesOk(old(k.mem), t) && PagesOk(k.mem, t) && SameMap(old(k.mem), t, k.mem, t)
      ensures forall p :: p != page && p in old(k.mem) ==> p in k.mem && k.mem[p] == old(k.mem)[p]
    {
      RootFacts(k.mem, t);
      Kfree(page);
      TreeFrame(old(k.mem), k.mem, t);
    }

    /** uvmdealloc: shrink from oldsz to newsz bytes, giving whole pages back. */
    method Uvmdealloc(root: nat, oldsz: nat, newsz: nat, ghost t: Tabs, ghost leaf: map<nat, nat>) returns (r: nat)
      requires Valid() && Space(t) && t[Root] == root && LeafOk(k.mem, t, free, leaf, lo, hi)
      requires oldsz <= MAXVA && (newsz < oldsz ==>
                 OwnsRun(leaf, PagesFor(newsz), PagesFor(oldsz) - PagesFor(newsz), true))
      modifies this
      ensures Valid() && Space(t) && r == if newsz >= oldsz then oldsz else newsz
      ensures var n := if newsz >= oldsz then 0 else PagesFor(oldsz) - PagesFor(newsz);
              UnmapInv(old(k.mem), t, old(free), leaf, k.mem, free, PagesFor(newsz), n, true, lo, hi)
    {
      hide TreeOk, FreeOk, SpaceOk, Lookup, PagesOk, LeafOk, UnmapInv, MappedLeaves, OwnsRun;
      UnmapStart(k.mem, t, free, leaf, PagesFor(newsz), true, lo, hi);
      if newsz >= oldsz {
        return oldsz;
      }
      var npages := PagesFor(oldsz) - PagesFor(newsz);
      if npages > 0 {
        OwnedAreMapped(k.mem, t, free, leaf, PagesFor(newsz), npages, lo, hi);
        UnmapRun(root, PagesFor(newsz) * 4096, npages, true, t, leaf, PagesFor(newsz));
      }
      r := newsz;
    }

    /** uvmalloc: grow from oldsz to newsz bytes with zeroed pages. On failure the map is what it
        was; only tables that walk added may remain. */
    method Uvmalloc(root: nat, oldsz: nat, newsz: nat, xperm: nat, ghost t: Tabs, ghost leaf: map<nat, nat>,
                    ghost limit: nat) returns (ok: bool, r: nat, ghost u: Tabs, ghost leaf': map<nat, nat>)
      requires Valid() && Space(t) && t[Root] == root && LeafOk(k.mem, t, free, leaf, lo, hi)
      requires PagesOk(k.mem, t) && xperm in {0, 4, 8, 12}
      requires newsz >= oldsz ==>
                 CanGrow(k.mem, t, leaf, PagesFor(oldsz), limit) &&
                 RoomFor(PagesFor(oldsz), PagesFor(newsz), |free|, limit)
      modifies this
      ensures Valid() && Space(u)
      ensures newsz < oldsz ==> ok && r == oldsz && k == old(k) && free == old(free) && u == t && leaf' == leaf
      ensures newsz >= oldsz ==> r == if ok then newsz else 0
      ensures newsz >= oldsz && ok ==> PagesFor(newsz) <= limit
      ensures newsz >= oldsz && ok ==>
                AllocInv(old(k.mem), t, old(free), leaf, k.mem, u, free, leaf', PagesFor(oldsz), PagesFor(newsz),
                         NewPages(PagesFor(oldsz), PagesFor(newsz), 18 + xperm), lo, hi)
      ensures !ok ==> leaf' == leaf && AllocFailed(old(k.mem), t, old(free), leaf, k.mem, u, free, lo, hi)
      ensures newsz >= oldsz ==> MemoryShort(ok, |old(free)|, |free|, PagesFor(oldsz), PagesFor(newsz))
    {
      hide TreeOk, FreeOk, SpaceOk, Lookup, PagesOk, LeafOk, AllocInv, AllocFailed, CanGrow, NewPages;
      u, leaf', ok := t, leaf, true;
      if newsz < oldsz {
        return ok, oldsz, u, leaf';
      }
      var a;
      ghost var next;
      RoundUp(oldsz, newsz);
      ok, a, u, leaf', next :=
        AllocRun(root, PagesFor(oldsz) * 4096, newsz, 18 + xperm, t, leaf, PagesFor(oldsz), PagesFor(newsz), limit);
      if ok {
        return ok, newsz, u, leaf';
      }
      AllocFail(root, a, PagesFor(oldsz) * 4096, t, leaf, old(k.mem), old(free), u, leaf', PagesFor(oldsz), next, limit,
                NewPages(PagesFor(oldsz), PagesFor(newsz), 18 + xperm));
      r, leaf' := 0, leaf;
    }

    /** The failure exits of uvmalloc: give back the pages mapped so far. */
    method AllocFail(root: nat, a: nat, base: nat, ghost t: Tabs, ghost leaf: map<nat, nat>,
                     ghost mem0: Mem, ghost free0: seq<nat>, ghost u: Tabs, ghost leaf': map<nat, nat>,
                     ghost first: nat, ghost next: nat, ghost last: nat, ghost want: map<nat, NewPage>)
      requires Valid() && Space(u) && a == next * 4096 <= MAXVA && base == first * 4096 && first <= next <= last
      requires AllocInv(mem0, t, free0, leaf, k.mem, u, free, leaf', first, next, want, lo, hi) && Root in t &&
               t[Root] == root
      requires PagesOk(mem0, t) && CanGrow(mem0, t, leaf, first, last)
      modifies this
      ensures Valid() && Space(u)
      ensures AllocFailed(mem0, t, free0, leaf, k.mem, u, free, lo, hi)
    {
      hide TreeOk, FreeOk, SpaceOk, Lookup, PagesOk, LeafOk, AllocInv, AllocFailed, CanGrow, UnmapInv, OwnsRun,
           PagesFor;
      PagesForAligned(first);
      PagesForAligned(next);
      ghost var mem1, free1 := k.mem, free;
      RunOwned(mem0, t, free0, leaf, k.mem, u, free, leaf', first, next, want, lo, hi);
      var _ := Uvmdealloc(root, a, base, u, leaf');
      AllocUndo(mem0, t, free0, leaf, mem1, u, free1, leaf', k.mem, free, first, next, last, want, lo, hi);
    }

    /** uvmalloc's loop. */
    method AllocRun(root: nat, base: nat, newsz: nat, perm: nat, ghost t: Tabs, ghost leaf: map<nat, nat>,
                    ghost first: nat, ghost last: nat, ghost limit: nat)
      returns (ok: bool, a: nat, ghost u: Tabs, ghost leaf': map<nat, nat>, ghost next: nat)
      requires Valid() && Space(t) && t[Root] == root && LeafOk(k.mem, t, free, leaf, lo, hi)
      requires base == first * 4096 && last == PagesFor(newsz) && first <= last && 2 <= perm < 1024
      requires PagesOk(k.mem, t) && CanGrow(k.mem, t, leaf, first, limit) && RoomFor(first, last, |free|, limit)
      modifies this
      ensures Valid() && Space(u) && a == next * 4096 && first <= next <= last && next <= limit && a <= MAXVA
      ensures AllocInv(old(k.mem), t, old(free), leaf, k.mem, u, free, leaf', first, next, NewPages(first, last, perm),
              lo, hi)
      ensures (ok <==> next == last) && Root in t && MemoryShort(ok, |old(free)|, |free|, first, last)
    {
      hide TreeOk, FreeOk, SpaceOk, Lookup, PagesOk, LeafOk, AllocInv, AllocStep, CanGrow, PagesFor, Zeros;
      ghost var want := NewPages(first, last, perm);
      AllocStart(k.mem, t, free, leaf, first, want, lo, hi);
      a := base;
      u, leaf', next, ok := t, leaf, first, true;
      while ok && a < newsz
        invariant a == next * 4096 && first <= next <= last && next <= limit && (!ok ==> next < last)
        invariant Valid() && Space(u) && MemoryShort(ok, |old(free)|, |free|, first, if ok then next else next + 1)
        invariant AllocInv(old(k.mem), t, old(free), leaf, k.mem, u, free, leaf', first, next, want, lo, hi)
        decreases ok, last - next
      {
        ghost var mem0, u0, free0, leaf0 := k.mem, u, free, leaf';
        ghost var page;
        PagesForAbove(newsz, next);
        RunFits(old(k.mem), t, old(free), leaf, k, u, free, leaf', first, next, limit, want, lo, hi);
        AllocReady(old(k.mem), t, old(free), leaf, k.mem, u, free, leaf', first, next, limit, want, lo, hi);
        ok, u, page := AllocOne(root, a, perm, Zeros(), u0, leaf0, next);
        AllocNext(old(k.mem), t, old(free), leaf, mem0, u0, free0, leaf0, k.mem, u, free, first, next, ok, page, want,
          lo, hi);
        if ok {
          leaf' := leaf0[next := page];
          next := next + 1;
          a := a + 4096;
        }
      }
      PagesForEnd(newsz, next);
    }

    /** uvmcopy: give `new` a copy of the first sz bytes of `old`, page by page with the same
        permissions. On failure the map of `new` is what it was; `old` is never touched. */
    method Uvmcopy(oldRoot: nat, newRoot: nat, sz: nat, ghost s: Tabs, ghost source: map<nat, nat>, ghost t: Tabs,
                   ghost leaf: map<nat, nat>) returns (ok: bool, ghost u: Tabs, ghost leaf': map<nat, nat>)
      requires Valid() && Space(t) && t[Root] == newRoot && LeafOk(k.mem, t, free, leaf, lo, hi) && sz <= MAXVA
      requires SourceOk(k.mem, s, free, source, t, leaf, lo, hi) && s[Root] == oldRoot &&
               OwnsRun(source, 0, PagesFor(sz), true)
      requires PagesOk(k.mem, t) && CanGrow(k.mem, t, leaf, 0, PagesFor(sz))
      modifies this
      ensures Valid() && Space(u) && SourceOk(k.mem, s, free, source, t, leaf, lo, hi)
      ensures SameSource(old(k.mem), s, source, k.mem)
      ensures PagesOk(old(k.mem), s) && Copyable(old(k.mem), s, source)
      ensures ok ==> AllocInv(old(k.mem), t, old(free), leaf, k.mem, u, free, leaf', 0, PagesFor(sz),
                              Copies(old(k.mem), s, source), lo, hi)
      ensures !ok ==> leaf' == leaf && AllocFailed(old(k.mem), t, old(free), leaf, k.mem, u, free, lo, hi)
      ensures MemoryShort(ok, |old(free)|, |free|, 0, PagesFor(sz))
    {
      hide TreeOk, FreeOk, SpaceOk, Lookup, PagesOk, LeafOk, AllocInv, AllocFailed, AllocStep, CanGrow, PagesFor,
           SourceOk, SameSource,
        OwnsRun, UnmapInv, Copies, Copyable, MappedLeaves;
      SourceCopyable(k.mem, s, free, source, t, leaf, lo, hi);
      ghost var want := Copies(k.mem, s, source);
      PagesForMax(sz);
      ghost var n := PagesFor(sz);
      AllocStart(k.mem, t, free, leaf, 0, want, lo, hi);
      SourceStart(k.mem, s, source);
      var i := 0;
      ghost var next := 0;
      u, leaf', ok := t, leaf, true;
      while ok && i < sz
        invariant i == next * 4096 && next <= n && i <= MAXVA && (!ok ==> next < n)
        invariant Valid() && Space(u) && MemoryShort(ok, |old(free)|, |free|, 0, if ok then next else next + 1)
        invariant SourceOk(k.mem, s, free, source, t, leaf, lo, hi) && SameSource(old(k.mem), s, source, k.mem)
        invariant AllocInv(old(k.mem), t, old(free), leaf, k.mem, u, free, leaf', 0, next, want, lo, hi)
        decreases ok, n - next
      {
        ghost var mem0, u0, free0, leaf0 := k.mem, u, free, leaf';
        ghost var page;
        PagesForAbove(sz, next);
        AllocReady(old(k.mem), t, old(free), leaf, k.mem, u, free, leaf', 0, next, n, want, lo, hi);
        CopyReady(old(k.mem), s, free, source, t, leaf, k.mem, next, n, lo, hi);
        ok, u, page := CopyOne(oldRoot, newRoot, i, s, source, u0, leaf0, next);
        AllocNext(old(k.mem), t, old(free), leaf, mem0, u0, free0, leaf0, k.mem, u, free, 0, next, ok, page, want, lo,
          hi);
        SourceKept(old(k.mem), s, old(free), source, t, leaf, k.mem, u, free, if ok then leaf0[next := page] else leaf0,
          0,
                   if ok then next + 1 else next, want, lo, hi);
        if ok {
          leaf' := leaf0[next := page];
          next := next + 1;
          i := i + 4096;
        }
      }
      PagesForEnd(sz, next);
      if !ok {
        CopyFail(newRoot, i, s, source, t, leaf, old(k.mem), old(free), u, leaf', next, n, want);
        leaf' := leaf;
      }
    }

    /** The body of uvmcopy's loop. */
    method CopyOne(oldRoot: nat, newRoot: nat, i: nat, ghost s: Tabs, ghost source: map<nat, nat>,
                   ghost t: Tabs, ghost leaf: map<nat, nat>, ghost vpn: nat)
      returns (ok: bool, ghost u: Tabs, ghost page: nat)
      requires Valid() && Space(t) && Root in t && t[Root] == newRoot && LeafOk(k.mem, t, free, leaf, lo, hi)
      requires Space(s) && s[Root] == oldRoot && LeafOk(k.mem, s, free, source, lo, hi) && vpn in source
      requires i == vpn * 4096 < MAXVA - 4095 && vpn !in leaf && Lookup(k.mem, t, vpn).None?
      modifies this
      ensures Valid() && Space(u)
      ensures source[vpn] in old(k.mem) && PagesOk(old(k.mem), s) && Lookup(old(k.mem), s, vpn).Some?
      ensures AllocStep(old(k.mem), t, old(free), leaf, k.mem, u, free, vpn, ok, page,
                        Flags(Lookup(old(k.mem), s, vpn).value), old(k.mem)[source[vpn]], lo, hi)
      ensures if ok then |old(free)| <= |free| + 3 else |old(free)| < 3
    {
      hide TreeOk, FreeOk, SpaceOk, Lookup, PagesOk, AllocStep;
      assert i / 4096 == vpn;
      var slot, _ := Walk(oldRoot, i, false, s);
      LookupSlot(k.mem, s, vpn);
      LookupIsValid(k.mem, s, vpn);
      var pte := k.mem[slot.value.0][slot.value.1];
      ok, u, page := AllocOne(newRoot, i, Flags(pte), k.mem[Ppn(pte)], t, leaf, vpn);
    }

    /** The failure exit of uvmcopy. */
    method CopyFail(root: nat, i: nat, ghost s: Tabs, ghost source: map<nat, nat>, ghost t: Tabs,
                    ghost leaf: map<nat, nat>, ghost mem0: Mem, ghost free0: seq<nat>, ghost u: Tabs,
                    ghost leaf': map<nat, nat>, ghost next: nat, ghost last: nat, ghost want: map<nat, NewPage>)
      requires Valid() && Space(u) && i == next * 4096 <= MAXVA && next <= last
      requires SourceOk(mem0, s, free0, source, t, leaf, lo, hi)
      requires AllocInv(mem0, t, free0, leaf, k.mem, u, free, leaf', 0, next, want, lo, hi) && Root in t &&
               t[Root] == root
      requires PagesOk(mem0, t) && CanGrow(mem0, t, leaf, 0, last)
      modifies this
      ensures Valid() && Space(u)
      ensures AllocFailed(mem0, t, free0, leaf, k.mem, u, free, lo, hi)
      ensures SourceOk(k.mem, s, free, source, t, leaf, lo, hi) && SameSource(mem0, s, source, k.mem)
    {
      hide TreeOk, FreeOk, SpaceOk, Lookup, PagesOk, LeafOk, AllocInv, AllocFailed, CanGrow, UnmapInv, OwnsRun,
           SourceOk, SameSource;
      ghost var mem1, free1 := k.mem, free;
      RunOwned(mem0, t, free0, leaf, k.mem, u, free, leaf', 0, next, want, lo, hi);
      OwnedAreMapped(k.mem, u, free, leaf', 0, next, lo, hi);
      assert i / 4096 == next;
      UnmapRun(root, 0, i / 4096, true, u, leaf', 0);
      AllocUndo(mem0, t, free0, leaf, mem1, u, free1, leaf', k.mem, free, 0, next, last, want, lo, hi);
      SourceUndone(mem0, s, free0, source, t, leaf, k.mem, u, free, lo, hi);
    }

    /** One page of uvmalloc or uvmcopy: kalloc, fill, mappages, and kfree if that fails. */
    method AllocOne(root: nat, a: nat, perm: nat, data: Page, ghost t: Tabs, ghost leaf: map<nat, nat>, ghost vpn: nat)
      returns (ok: bool, ghost u: Tabs, ghost page: nat)
      requires Valid() && Space(t) && t[Root] == root && LeafOk(k.mem, t, free, leaf, lo, hi)
      requires a == vpn * 4096 && 2 <= perm < 1024
      requires free != [] ==> a < MAXVA - 4095 && vpn !in leaf && Lookup(k.mem, t, vpn).None?
      modifies this
      ensures Valid() && Space(u) && (ok ==> old(free) != [])
      ensures AllocStep(old(k.mem), t, old(free), leaf, k.mem, u, free, vpn, ok, page, perm, data, lo, hi)
      ensures if ok then |old(free)| <= |free| + 3 else |old(free)| < 3
    {
      hide TreeOk, FreeOk, SpaceOk, Lookup, PagesOk, LeafOk, AllocStep, MapInv, Unmapped, MakePte;
      u, page := t, 0;
      AllocNothing(k.mem, t, free, leaf, vpn, perm, data, lo, hi);
      var r := Kalloc();
      if r.None? {
        return false, u, page;
      }
      page := r.value;
      ghost var free1 := free;
      FillPage(r.value, data, t, leaf, old(k.mem), old(free));
      ghost var mem1 := k.mem;
      ghost var done;
      Unmapped1(old(k.mem), t, k.mem, vpn);
      assert a / 4096 == vpn && r.value * 4096 / 4096 == page;
      ok, u, done := MapRun(root, a, 4096, r.value * 4096, perm, t, vpn, 1, page);
      if ok {
        AllocStepOk(old(k.mem), t, old(free), leaf, mem1, k.mem, u, free, vpn, page, perm, data, lo, hi);
      } else {
        AllocPageKept(old(k.mem), t, old(free), leaf, mem1, k.mem, u, free, vpn, page, perm, data, lo, hi);
        ghost var mem2, free2 := k.mem, free;
        Kfree(r.value);
        AllocUndone(old(k.mem), t, old(free), leaf, mem1, mem2, k.mem, u, free2, free, vpn, page, perm, data, lo, hi);
      }
    }

    /** memset or memmove into a page just taken from the allocator. */
    method FillPage(page: nat, data: Page, ghost t: Tabs, ghost leaf: map<nat, nat>, ghost mem0: Mem,
                    ghost free0: seq<nat>)
      requires Valid() && SpaceOk(mem0, t, free0, lo, hi) && LeafOk(mem0, t, free0, leaf, lo, hi)
      requires free0 != [] && page == free0[0] && free == free0[1..] && FreeOk(k, free, lo, hi) && page !in free
      requires k.mem == mem0[page := Junk(0x0505050505050505)]
      modifies this
      ensures Valid() && free == old(free) && k.mem == mem0[page := data] && Space(t)
      ensures PagesOk(mem0, t) && PagesOk(k.mem, t) && SameMap(mem0, t, k.mem, t)
      ensures LeafOk(k.mem, t, free, leaf, lo, hi)
    {
      TreeFrame(mem0, mem0[page := data], t);
      FreeFrame(k, k.mem[page := data], free, lo, hi);
      k := k.(mem := k.mem[page := data]);
    }

    /** kalloc, memset to zero, and the store of the pointer to the new table. */
    method Grow(page: nat, i: nat, ghost at: Label, ghost u: Tabs) returns (child: nat)
      requires Valid() && free != [] && i < ENTRIES
      requires Space(u) && at in u && 0 < at.level && u[at] == page && Child(at, i) !in u
      modifies this
      ensures child == old(free)[0] && free == old(free)[1..]
      ensures Valid() && Space(u[Child(at, i) := child]) && Extends(u, u[Child(at, i) := child])
      ensures PagesOk(old(k.mem), u) && PagesOk(k.mem, u[Child(at, i) := child])
      ensures SameMap(old(k.mem), u, k.mem, u[Child(at, i) := child])
      ensures Untouched(old(k.mem), k.mem, u, old(free))
      ensures Pages(free) + u[Child(at, i) := child].Values == Pages(old(free)) + u.Values
    {
      FreeDistinct(k, free, lo, hi);
      hide TreeOk, FreeOk, Lookup, LabelsOk, Injective;
      var r := Kalloc();
      child := r.value;
      GrowOk(old(k.mem), k, old(free), lo, hi, u, at, i);
      k := k.(mem := Store(k.mem[child := Zeros()], page, i, MakePte(child, 0)));
    }
  }

  lemma UntouchedStep(m0: Mem, m1: Mem, m2: Mem, t: Tabs, u: Tabs, free0: seq<nat>, free1: seq<nat>)
    requires Untouched(m0, m1, t, free0) && Untouched(m1, m2, u, free1)
    requires Pages(free1) + u.Values == Pages(free0) + t.Values
    ensures Untouched(m0, m2, t, free0)
  {
    forall p | p in m0 && p !in free0 && p !in t.Values ensures p in m2 && m2[p] == m0[p] {
      assert p !in Pages(free0) + t.Values;
    }
  }

  lemma UntouchedWrite(m0: Mem, m1: Mem, m2: Mem, t: Tabs, u: Tabs, free0: seq<nat>, free1: seq<nat>)
    requires Untouched(m0, m1, t, free0)
    requires forall p :: p !in u.Values && p in m1 ==> p in m2 && m2[p] == m1[p]
    requires Pages(free1) + u.Values == Pages(free0) + t.Values
    ensures Untouched(m0, m2, t, free0)
  {
    forall p | p in m0 && p !in free0 && p !in t.Values ensures p in m2 && m2[p] == m0[p] {
      assert p !in Pages(free0) + t.Values;
    }
  }

  /** The flat map changes on exactly the `n` pages from `first`, which now lead to the `n`
      physical pages from `page`. */
  ghost predicate MappedRun(mem: Mem, t: Tabs, mem': Mem, u: Tabs, first: nat, n: nat, page: nat, perm: nat)
    requires PagesOk(mem, t) && PagesOk(mem', u) && perm < 1024
  {
    forall v: nat :: Lookup(mem', u, v) ==
                     if first <= v < first + n then Some(MakePte(page + (v - first), perm)) else Lookup(mem, t, v)
  }

  /** The flat map changes at `vpn` only, and only if `ok`. */
  ghost predicate SetAt(mem: Mem, t: Tabs, mem': Mem, u: Tabs, vpn: nat, ok: bool, page: nat, perm: nat)
    requires PagesOk(mem, t) && PagesOk(mem', u) && perm < 1024
  {
    forall v: nat :: Lookup(mem', u, v) ==
                     if ok && v == vpn then Some(MakePte(page, perm)) else Lookup(mem, t, v)
  }

  lemma MappedSame(mem: Mem, t: Tabs, m1: Mem, u1: Tabs, m2: Mem, u2: Tabs, first: nat, n: nat, page: nat, perm: nat,
                   ok: bool)
    requires PagesOk(mem, t) && PagesOk(m1, u1) && PagesOk(m2, u2) && perm < 1024
    requires MappedRun(mem, t, m1, u1, first, n, page, perm)
    requires SetAt(m1, u1, m2, u2, first + n, ok, page + n, perm)
    ensures MappedRun(mem, t, m2, u2, first, if ok then n + 1 else n, page, perm)
  {
  }

  lemma PageOf(va: nat, n: nat)
    ensures (va + n * 4096) / 4096 == va / 4096 + n
  {
  }

  /** No translation for the `n` pages from `first`. */
  ghost predicate Unmapped(mem: Mem, t: Tabs, first: nat, n: nat)
    requires PagesOk(mem, t)
  {
    forall v: nat :: first <= v < first + n ==> Lookup(mem, t, v).None?
  }

  /** mappages's loop invariant: `n` pages of the run are mapped, and the tables this took came
      from the free pages. */
  ghost predicate MapInv(mem: Mem, t: Tabs, free: seq<nat>, mem': Mem, u: Tabs, free': seq<nat>,
                         first: nat, n: nat, page: nat, perm: nat)
  {
    && perm < 1024 && PagesOk(mem, t) && PagesOk(mem', u) && Root in t && Extends(t, u)
    && MappedRun(mem, t, mem', u, first, n, page, perm)
    && Pages(free') + u.Values == Pages(free) + t.Values
    && Untouched(mem, mem', t, free)
  }

  lemma MapStart(mem: Mem, t: Tabs, free: seq<nat>, lo: nat, hi: nat, first: nat, page: nat, perm: nat)
    requires SpaceOk(mem, t, free, lo, hi) && perm < 1024
    ensures MapInv(mem, t, free, mem, t, free, first, 0, page, perm)
  {
  }

  lemma MapReady(mem: Mem, t: Tabs, free: seq<nat>, m1: Mem, u: Tabs, free1: seq<nat>,
                 first: nat, total: nat, n: nat, page: nat, perm: nat)
    requires MapInv(mem, t, free, m1, u, free1, first, n, page, perm) && n < total
    requires Unmapped(mem, t, first, total)
    ensures PagesOk(m1, u) && Root in u && u[Root] == t[Root] && Lookup(m1, u, first + n).None?
  {
  }

  lemma MapNext(mem: Mem, t: Tabs, free: seq<nat>, m1: Mem, u1: Tabs, free1: seq<nat>, m2: Mem, u2: Tabs,
                free2: seq<nat>, first: nat, n: nat, page: nat, perm: nat, ok: bool)
    requires MapInv(mem, t, free, m1, u1, free1, first, n, page, perm)
    requires Extends(u1, u2) && PagesOk(m2, u2) && SetAt(m1, u1, m2, u2, first + n, ok, page + n, perm)
    requires Pages(free2) + u2.Values == Pages(free1) + u1.Values && Untouched(m1, m2, u1, free1)
    ensures MapInv(mem, t, free, m2, u2, free2, first, if ok then n + 1 else n, page, perm)
  {
    UntouchedStep(mem, m1, m2, t, u1, free, free1);
    MappedSame(mem, t, m1, u1, m2, u2, first, n, page, perm, ok);
  }

  // ------------------------------------------------------------ pages behind mappings

  /** `leaf` gives, for the virtual pages whose memory the address space owns, the physical
      page: mapped, managed, not free, not a table, and behind no other page of `leaf`. */
  ghost predicate LeafOk(mem: Mem, t: Tabs, free: seq<nat>, leaf: map<nat, nat>, lo: nat, hi: nat) {
    && PagesOk(mem, t)
    && (forall v :: v in leaf ==>
          && Lookup(mem, t, v).Some? && Ppn(Lookup(mem, t, v).value) == leaf[v] && Flags(Lookup(mem, t, v).value) != 1
          && lo <= leaf[v] < hi && leaf[v] !in free && leaf[v] !in t.Values && leaf[v] in mem)
    && (forall v, w :: v in leaf && w in leaf && leaf[v] == leaf[w] ==> v == w)
  }

  ghost predicate MappedLeaves(mem: Mem, t: Tabs, first: nat, n: nat)
    requires PagesOk(mem, t)
  {
    forall v: nat :: first <= v < first + n ==> Lookup(mem, t, v).Some? && Flags(Lookup(mem, t, v).value) != 1
  }

  /** The pages of the run are all owned if they are to be freed, and none is otherwise. */
  ghost predicate OwnsRun(leaf: map<nat, nat>, first: nat, n: nat, doFree: bool) {
    forall v: nat :: first <= v < first + n ==> (v in leaf <==> doFree)
  }

  ghost function DropRun(leaf: map<nat, nat>, first: nat, n: nat, doFree: bool): map<nat, nat> {
    if doFree then map v | v in leaf && !(first <= v < first + n) :: leaf[v] else leaf
  }

  ghost function Drop(leaf: map<nat, nat>, v: nat): map<nat, nat> {
    map w | w in leaf && w != v :: leaf[w]
  }

  /** One mapping removed: its page goes to the free list if `doFree`, nothing else changes. */
  ghost predicate UnmapStep(mem: Mem, t: Tabs, free: seq<nat>, leaf: map<nat, nat>, mem': Mem, free': seq<nat>,
                            vpn: nat, doFree: bool, lo: nat, hi: nat)
  {
    && PagesOk(mem, t) && PagesOk(mem', t)
    && (doFree ==> vpn in leaf)
    && LeafOk(mem', t, free', if doFree then Drop(leaf, vpn) else leaf, lo, hi)
    && (forall v: nat :: Lookup(mem', t, v) == if v == vpn then None else Lookup(mem, t, v))
    && free' == (if doFree then [leaf[vpn]] + free else free)
    && (forall p :: p in mem && p !in t.Values && (doFree ==> p != leaf[vpn]) ==> p in mem' && mem'[p] == mem[p])
  }

  /** `n` mappings removed from `first` on: the flat map loses exactly them, and with `doFree`
      exactly their pages move to the free list. */
  ghost predicate UnmapInv(mem: Mem, t: Tabs, free: seq<nat>, leaf: map<nat, nat>, mem': Mem, free': seq<nat>,
                           first: nat, n: nat, doFree: bool, lo: nat, hi: nat)
  {
    && PagesOk(mem, t) && PagesOk(mem', t)
    && LeafOk(mem', t, free', DropRun(leaf, first, n, doFree), lo, hi)
    && (forall v: nat :: Lookup(mem', t, v) == if first <= v < first + n then None else Lookup(mem, t, v))
    && Pages(free') + DropRun(leaf, first, n, doFree).Values == Pages(free) + leaf.Values
    && |free'| == |free| + (if doFree then n else 0) && (!doFree ==> free' == free)
    && Untouched(mem, mem', t, free')
  }

  lemma LookupSlot(mem: Mem, t: Tabs, vpn: nat)
    requires PagesOk(mem, t) && Lookup(mem, t, vpn).Some?
    ensures PathLabel(0, vpn) in t && t[PathLabel(0, vpn)] in mem && |mem[t[PathLabel(0, vpn)]]| == ENTRIES
    ensures Lookup(mem, t, vpn).value == mem[t[PathLabel(0, vpn)]][Index(0, vpn)]
  {
  }

  lemma UnmapStart(mem: Mem, t: Tabs, free: seq<nat>, leaf: map<nat, nat>, first: nat, doFree: bool, lo: nat, hi: nat)
    requires LeafOk(mem, t, free, leaf, lo, hi)
    ensures UnmapInv(mem, t, free, leaf, mem, free, first, 0, doFree, lo, hi)
  {
    assert DropRun(leaf, first, 0, doFree) == leaf;
  }

  lemma UnmapReady(mem: Mem, t: Tabs, free: seq<nat>, leaf: map<nat, nat>, m1: Mem, free1: seq<nat>,
                   first: nat, n: nat, total: nat, doFree: bool, lo: nat, hi: nat)
    requires UnmapInv(mem, t, free, leaf, m1, free1, first, n, doFree, lo, hi) && n < total
    requires MappedLeaves(mem, t, first, total)
    requires OwnsRun(leaf, first, total, doFree)
    ensures PagesOk(m1, t) && LeafOk(m1, t, free1, DropRun(leaf, first, n, doFree), lo, hi)
    ensures Lookup(m1, t, first + n).Some? && Flags(Lookup(m1, t, first + n).value) != 1
    ensures first + n in DropRun(leaf, first, n, doFree) <==> doFree
  {
  }

  lemma RemovedValue(m: map<nat, nat>, v: nat)
    requires v in m && forall w :: w in m && m[w] == m[v] ==> w == v
    ensures Drop(m, v).Values + {m[v]} == m.Values
  {
    forall x | x in m.Values ensures x in Drop(m, v).Values + {m[v]} {
      var w :| w in m && m[w] == x;
      if w != v { assert w in Drop(m, v); }
    }
  }

  /** What one more removed page does to the owned pages and the free list. */
  lemma DropNext(leaf: map<nat, nat>, free: seq<nat>, free1: seq<nat>, free2: seq<nat>, first: nat, n: nat)
    requires var l1, v := DropRun(leaf, first, n, true), first + n;
             v in l1 && (forall w :: w in l1 && l1[w] == l1[v] ==> w == v) && free2 == [l1[v]] + free1
    requires Pages(free1) + DropRun(leaf, first, n, true).Values == Pages(free) + leaf.Values
    ensures var l1, v := DropRun(leaf, first, n, true), first + n;
            DropRun(leaf, first, n + 1, true) == Drop(l1, v) && l1[v] in leaf.Values
    ensures Pages(free2) + DropRun(leaf, first, n + 1, true).Values == Pages(free) + leaf.Values
  {
    var l1, v: nat := DropRun(leaf, first, n, true), first + n;
    assert DropRun(leaf, first, n + 1, true) == Drop(l1, v);
    RemovedValue(l1, v);
    assert Pages(free2) == Pages(free1) + {l1[v]};
    assert leaf[v] in leaf.Values;
  }

  lemma UnmapNext(mem: Mem, t: Tabs, free: seq<nat>, leaf: map<nat, nat>, m1: Mem, free1: seq<nat>, m2: Mem,
                  free2: seq<nat>, first: nat, n: nat, doFree: bool, lo: nat, hi: nat)
    requires UnmapInv(mem, t, free, leaf, m1, free1, first, n, doFree, lo, hi)
    requires LeafOk(m1, t, free1, DropRun(leaf, first, n, doFree), lo, hi)
    requires UnmapStep(m1, t, free1, DropRun(leaf, first, n, doFree), m2, free2, first + n, doFree, lo, hi)
    ensures UnmapInv(mem, t, free, leaf, m2, free2, first, n + 1, doFree, lo, hi)
  {
    hide Lookup, LeafOk, PagesOk, Pages, DropRun;
    if doFree {
      LeafDistinct(m1, t, free1, DropRun(leaf, first, n, doFree), lo, hi);
      DropNext(leaf, free, free1, free2, first, n);
    } else {
      assert DropRun(leaf, first, n, false) == leaf == DropRun(leaf, first, n + 1, false) by {
        DropNone(leaf, first, n);
      }
    }
  }

  lemma DropNone(leaf: map<nat, nat>, first: nat, n: nat)
    ensures DropRun(leaf, first, n, false) == leaf == DropRun(leaf, first, n + 1, false)
  {
  }

  lemma LeafDistinct(mem: Mem, t: Tabs, free: seq<nat>, leaf: map<nat, nat>, lo: nat, hi: nat)
    requires LeafOk(mem, t, free, leaf, lo, hi)
    ensures forall v, w :: v in leaf && w in leaf && leaf[v] == leaf[w] ==> v == w
  {
  }

  lemma UnmapStepOk(mem: Mem, t: Tabs, free: seq<nat>, leaf: map<nat, nat>, m1: Mem, m2: Mem, free2: seq<nat>,
                    vpn: nat, doFree: bool, lo: nat, hi: nat)
    requires LeafOk(mem, t, free, leaf, lo, hi) && (vpn in leaf <==> doFree)
    requires PagesOk(m1, t) && PagesOk(m2, t) && SameMap(mem, t, m1, t)
    requires forall v: nat :: Lookup(m2, t, v) == if v == vpn then None else Lookup(m1, t, v)
    requires free2 == if doFree then [leaf[vpn]] + free else free
    requires forall p :: p in mem && (doFree ==> p != leaf[vpn]) ==> p in m1 && m1[p] == mem[p]
    requires forall p :: p in m1 && p !in t.Values ==> p in m2 && m2[p] == m1[p]
    ensures UnmapStep(mem, t, free, leaf, m2, free2, vpn, doFree, lo, hi)
  {
  }

  // ------------------------------------------------------------ one page more

  /** One more page: mapped, filled and owned if `ok`; otherwise the map is as before, and what
      was taken is back or serves as a table. */
  ghost predicate AllocStep(mem: Mem, t: Tabs, free: seq<nat>, leaf: map<nat, nat>, mem': Mem, u: Tabs, free': seq<nat>,
                            vpn: nat, ok: bool, page: nat, perm: nat, data: Page, lo: nat, hi: nat)
  {
    && perm < 1024 && PagesOk(mem, t) && PagesOk(mem', u) && Root in t && Extends(t, u)
    && LeafOk(mem', u, free', if ok then leaf[vpn := page] else leaf, lo, hi)
    && (forall v: nat :: Lookup(mem', u, v) == if ok && v == vpn then Some(MakePte(page, perm)) else Lookup(mem, t, v))
    && Pages(free') + u.Values + (if ok then {page} else {}) == Pages(free) + t.Values
    && (ok ==> free != [] && page in mem' && mem'[page] == data)
    && Untouched(mem, mem', t, free)
  }

  lemma AllocNothing(mem: Mem, t: Tabs, free: seq<nat>, leaf: map<nat, nat>, vpn: nat, perm: nat, data: Page, lo: nat,
                     hi: nat)
    requires SpaceOk(mem, t, free, lo, hi) && LeafOk(mem, t, free, leaf, lo, hi) && perm < 1024
    ensures AllocStep(mem, t, free, leaf, mem, t, free, vpn, false, 0, perm, data, lo, hi)
  {
  }

  lemma Unmapped1(mem: Mem, t: Tabs, mem': Mem, vpn: nat)
    requires PagesOk(mem, t) && PagesOk(mem', t) && SameMap(mem, t, mem', t) && Lookup(mem, t, vpn).None?
    ensures Unmapped(mem', t, vpn, 1)
  {
  }

  /** Where the new page stands after mappages: neither free nor a table, and still filled. */
  lemma AllocPageKept(mem: Mem, t: Tabs, free: seq<nat>, leaf: map<nat, nat>, m1: Mem, m2: Mem, u: Tabs,
                      free2: seq<nat>, vpn: nat, page: nat, perm: nat, data: Page, lo: nat, hi: nat)
    requires SpaceOk(mem, t, free, lo, hi) && LeafOk(mem, t, free, leaf, lo, hi)
    requires free != [] && page == free[0] && page !in free[1..] && m1 == mem[page := data]
    requires exists n :: MapInv(m1, t, free[1..], m2, u, free2, vpn, n, page, perm)
    ensures page !in free2 && page !in u.Values && page in m2 && m2[page] == data
    ensures Pages(free2) + u.Values + {page} == Pages(free) + t.Values
    ensures Untouched(mem, m2, t, free)
    ensures forall v :: v in leaf ==> leaf[v] != page && leaf[v] !in free2 && leaf[v] !in u.Values
                                      && leaf[v] in m2 && m2[leaf[v]] == mem[leaf[v]]
  {
    assert Pages(free) == Pages(free[1..]) + {page};
    assert page !in Pages(free[1..]) + t.Values;
    assert page !in Pages(free2) + u.Values;
    forall v | v in leaf ensures leaf[v] != page && leaf[v] !in free2 && leaf[v] !in u.Values
                                 && leaf[v] in m2 && m2[leaf[v]] == mem[leaf[v]]
    {
      assert leaf[v] !in Pages(free) + t.Values;
      assert leaf[v] !in Pages(free2) + u.Values;
    }
  }

  lemma AllocStepOk(mem: Mem, t: Tabs, free: seq<nat>, leaf: map<nat, nat>, m1: Mem, m2: Mem, u: Tabs, free2: seq<nat>,
                    vpn: nat, page: nat, perm: nat, data: Page, lo: nat, hi: nat)
    requires SpaceOk(mem, t, free, lo, hi) && LeafOk(mem, t, free, leaf, lo, hi) && vpn !in leaf && 2 <= perm < 1024
    requires free != [] && page == free[0] && page !in free[1..] && lo <= page < hi && m1 == mem[page := data]
    requires PagesOk(m1, t) && SameMap(mem, t, m1, t)
    requires MapInv(m1, t, free[1..], m2, u, free2, vpn, 1, page, perm)
    ensures AllocStep(mem, t, free, leaf, m2, u, free2, vpn, true, page, perm, data, lo, hi)
  {
    hide TreeOk, Pages;
    AllocPageKept(mem, t, free, leaf, m1, m2, u, free2, vpn, page, perm, data, lo, hi);
    LeafExtend(mem, t, free, leaf, m2, u, free2, vpn, page, perm, lo, hi);
  }

  lemma LeafExtend(mem: Mem, t: Tabs, free: seq<nat>, leaf: map<nat, nat>, m2: Mem, u: Tabs, free2: seq<nat>,
                   vpn: nat, page: nat, perm: nat, lo: nat, hi: nat)
    requires LeafOk(mem, t, free, leaf, lo, hi) && vpn !in leaf && 2 <= perm < 1024 && PagesOk(m2, u)
    requires forall v: nat :: Lookup(m2, u, v) == if v == vpn then Some(MakePte(page, perm)) else Lookup(mem, t, v)
    requires lo <= page < hi && page !in free2 && page !in u.Values && page in m2
    requires forall v :: v in leaf ==> leaf[v] != page && leaf[v] !in free2 && leaf[v] !in u.Values && leaf[v] in m2
    ensures LeafOk(m2, u, free2, leaf[vpn := page], lo, hi)
  {
    hide Lookup;
  }

  lemma AllocUndone(mem: Mem, t: Tabs, free: seq<nat>, leaf: map<nat, nat>, m1: Mem, m2: Mem, m3: Mem, u: Tabs,
                    free2: seq<nat>, free3: seq<nat>, vpn: nat, page: nat, perm: nat, data: Page, lo: nat, hi: nat)
    requires SpaceOk(mem, t, free, lo, hi) && LeafOk(mem, t, free, leaf, lo, hi) && perm < 1024
    requires free != [] && page == free[0] && page !in free[1..] && m1 == mem[page := data]
    requires PagesOk(m1, t) && SameMap(mem, t, m1, t)
    requires MapInv(m1, t, free[1..], m2, u, free2, vpn, 0, page, perm)
    requires SpaceOk(m2, u, free2, lo, hi) && free3 == [page] + free2
    requires forall p :: p != page ==> (p in m3 <==> p in m2) && (p in m3 ==> m3[p] == m2[p])
    ensures SpaceOk(m3, u, free3, lo, hi)
    ensures AllocStep(mem, t, free, leaf, m3, u, free3, vpn, false, page, perm, data, lo, hi)
  {
    AllocPageKept(mem, t, free, leaf, m1, m2, u, free2, vpn, page, perm, data, lo, hi);
    TreeFrame(m2, m3, u);
    assert Pages(free3) == Pages(free2) + {page};
  }

  // ------------------------------------------------------------ uvmalloc and uvmdealloc

  /** PGROUNDUP(sz) / PGSIZE. */
  function PagesFor(sz: nat): nat {
    (sz + 4095) / 4096
  }

  lemma PagesForAligned(n: nat)
    ensures PagesFor(n * 4096) == n
  {
  }

  lemma PagesForAbove(sz: nat, n: nat)
    requires n * 4096 < sz
    ensures n < PagesFor(sz) && (sz <= MAXVA ==> n * 4096 < MAXVA - 4095)
  {
    assert MAXVA == 0x400_0000 * 4096;
  }

  lemma PagesForEnd(sz: nat, n: nat)
    ensures n * 4096 >= sz ==> n >= PagesFor(sz)
  {
  }

  lemma PagesForMax(sz: nat)
    requires sz <= MAXVA
    ensures PagesFor(sz) * 4096 <= MAXVA
  {
    assert MAXVA == 0x400_0000 * 4096;
  }

  lemma RoundUp(oldsz: nat, newsz: nat)
    requires oldsz <= newsz
    ensures PagesFor(oldsz) <= PagesFor(newsz)
  {
  }

  lemma OwnedAreMapped(mem: Mem, t: Tabs, free: seq<nat>, leaf: map<nat, nat>, first: nat, n: nat, lo: nat, hi: nat)
    requires LeafOk(mem, t, free, leaf, lo, hi) && OwnsRun(leaf, first, n, true)
    ensures PagesOk(mem, t) && MappedLeaves(mem, t, first, n)
  {
  }

  /** A run of new pages takes at most three free pages for each page, two of them tables. It is
      given up only when there were fewer. */
  ghost predicate MemoryShort(ok: bool, before: nat, after: nat, first: nat, last: nat) {
    if ok then before <= after + 3 * (last - first) else before < 3 * (last - first)
  }

  /** A run from `first` to `last` stays below `limit`, or runs out of free pages before it. */
  ghost predicate RoomFor(first: nat, last: nat, nfree: nat, limit: nat) {
    first <= limit <= 0x400_0000 && (last <= limit || first + nfree <= limit)
  }

  /** Pages `first` to `last` are neither mapped nor owned yet. */
  ghost predicate CanGrow(mem: Mem, t: Tabs, leaf: map<nat, nat>, first: nat, last: nat)
    requires PagesOk(mem, t)
  {
    forall v: nat :: first <= v < last ==> Lookup(mem, t, v).None? && v !in leaf
  }

  /** What a new page is to be: its permissions and its contents. */
  datatype NewPage = NewPage(perm: nat, data: Page)

  predicate InRun(v: nat, first: nat, last: nat) {
    first <= v < last
  }

  ghost function NewPages(first: nat, last: nat, perm: nat): map<nat, NewPage> {
    map v: nat | v < last && InRun(v, first, last) :: NewPage(perm, Zeros())
  }

  ghost predicate WantOk(want: map<nat, NewPage>, first: nat, last: nat) {
    forall v: nat :: first <= v < last ==> v in want && 2 <= want[v].perm < 1024
  }

  /** The pages from `first` to `next` are new: owned, mapped and filled as wanted. Nothing else
      changes in the map, and every page taken from the free list serves as a page or a table. */
  ghost predicate AllocInv(mem: Mem, t: Tabs, free: seq<nat>, leaf: map<nat, nat>,
                           mem': Mem, u: Tabs, free': seq<nat>, leaf': map<nat, nat>,
                           first: nat, next: nat, want: map<nat, NewPage>, lo: nat, hi: nat)
  {
    && PagesOk(mem, t) && PagesOk(mem', u) && Root in t && Extends(t, u) && WantOk(want, first, next)
    && LeafOk(mem', u, free', leaf', lo, hi)
    && (forall v: nat :: v in leaf' <==> v in leaf || first <= v < next)
    && (forall v: nat :: v in leaf ==> leaf'[v] == leaf[v])
    && (forall v: nat :: Lookup(mem', u, v) ==
          if first <= v < next then Some(MakePte(leaf'[v], want[v].perm)) else Lookup(mem, t, v))
    && (forall v: nat :: first <= v < next ==> leaf'[v] in mem' && mem'[leaf'[v]] == want[v].data)
    && Pages(free') + u.Values + leaf'.Values == Pages(free) + t.Values + leaf.Values
    && Untouched(mem, mem', t, free)
  }

  /** The map, the owned pages and their contents are what they were; pages that became tables
      are accounted for. */
  ghost predicate AllocFailed(mem: Mem, t: Tabs, free: seq<nat>, leaf: map<nat, nat>, mem': Mem, u: Tabs,
                              free': seq<nat>, lo: nat, hi: nat)
  {
    && PagesOk(mem, t) && PagesOk(mem', u) && Root in t && Extends(t, u)
    && LeafOk(mem', u, free', leaf, lo, hi)
    && SameMap(mem, t, mem', u)
    && Pages(free') + u.Values + leaf.Values == Pages(free) + t.Values + leaf.Values
    && Untouched(mem, mem', t, free)
  }

  lemma AllocStart(mem: Mem, t: Tabs, free: seq<nat>, leaf: map<nat, nat>, first: nat, want: map<nat, NewPage>, lo: nat,
                   hi: nat)
    requires SpaceOk(mem, t, free, lo, hi) && LeafOk(mem, t, free, leaf, lo, hi)
    ensures AllocInv(mem, t, free, leaf, mem, t, free, leaf, first, first, want, lo, hi) && Root in t
  {
  }

  lemma AllocReady(mem: Mem, t: Tabs, free: seq<nat>, leaf: map<nat, nat>, m1: Mem, u: Tabs, free1: seq<nat>,
                   leaf1: map<nat, nat>, first: nat, next: nat, last: nat, want: map<nat, NewPage>, lo: nat, hi: nat)
    requires AllocInv(mem, t, free, leaf, m1, u, free1, leaf1, first, next, want, lo, hi)
    requires PagesOk(mem, t) && CanGrow(mem, t, leaf, first, last) && first <= next
    ensures PagesOk(m1, u) && Root in u && u[Root] == t[Root] && LeafOk(m1, u, free1, leaf1, lo, hi)
    ensures next < last ==> next !in leaf1 && Lookup(m1, u, next).None?
  {
  }

  lemma AddedValue(m: map<nat, nat>, v: nat, x: nat)
    requires v !in m
    ensures m[v := x].Values == m.Values + {x}
  {
    forall y | y in m.Values + {x} ensures y in m[v := x].Values {
      if y in m.Values {
        var w :| w in m && m[w] == y;
        assert m[v := x][w] == y;
      } else {
        assert m[v := x][v] == y;
      }
    }
  }

  /** Pages not free and not tables at the start stay as they are through one more step. */
  lemma UntouchedLeaf(mem: Mem, t: Tabs, free: seq<nat>, leaf: map<nat, nat>, m1: Mem, u: Tabs, free1: seq<nat>,
                      leaf1: map<nat, nat>, m2: Mem)
    requires Untouched(mem, m1, t, free)
    requires forall v: nat :: v in leaf ==>
               v in leaf1 && leaf1[v] == leaf[v] && leaf[v] !in free1 && leaf[v] !in u.Values
    requires Pages(free1) + u.Values + leaf1.Values == Pages(free) + t.Values + leaf.Values
    requires Untouched(m1, m2, u, free1)
    ensures Untouched(mem, m2, t, free)
  {
    forall p | p in mem && p !in free && p !in t.Values ensures p in m2 && m2[p] == mem[p] {
      if p in leaf.Values {
        var v :| v in leaf && leaf[v] == p;
      } else {
        assert p !in Pages(free) + t.Values + leaf.Values;
      }
    }
  }

  lemma AllocNext(mem: Mem, t: Tabs, free: seq<nat>, leaf: map<nat, nat>, m1: Mem, u1: Tabs, free1: seq<nat>,
                  leaf1: map<nat, nat>, m2: Mem, u2: Tabs, free2: seq<nat>, first: nat, next: nat, ok: bool, page: nat,
                  want: map<nat, NewPage>, lo: nat, hi: nat)
    requires AllocInv(mem, t, free, leaf, m1, u1, free1, leaf1, first, next, want, lo, hi)
    requires next in want && 2 <= want[next].perm < 1024
    requires AllocStep(m1, u1, free1, leaf1, m2, u2, free2, next, ok, page, want[next].perm, want[next].data, lo, hi)
    requires first <= next && (ok ==> next !in leaf1)
    ensures AllocInv(mem, t, free, leaf, m2, u2, free2, if ok then leaf1[next := page] else leaf1,
                     first, if ok then next + 1 else next, want, lo, hi)
  {
    hide Lookup, PagesOk, MakePte, LeafOk, Pages, Untouched, AllocStep;
    AllocFacts(m1, u1, free1, leaf1, m2, u2, free2, next, ok, page, want[next].perm, want[next].data, lo, hi);
    ExtendsTwice(t, u1, u2);
    AllocLookups(mem, t, free, leaf, m1, u1, free1, leaf1, m2, u2, free2, first, next, ok, page, want, lo, hi);
    AllocKeeps(mem, t, free, leaf, m1, u1, free1, leaf1, m2, first, next, want, lo, hi);
    AllocSum(mem, t, free, leaf, m1, u1, free1, leaf1, m2, u2, free2, first, next, ok, page, want, lo, hi);
  }

  lemma AllocFacts(mem: Mem, t: Tabs, free: seq<nat>, leaf: map<nat, nat>, mem': Mem, u: Tabs, free': seq<nat>,
                   vpn: nat, ok: bool, page: nat, perm: nat, data: Page, lo: nat, hi: nat)
    requires AllocStep(mem, t, free, leaf, mem', u, free', vpn, ok, page, perm, data, lo, hi)
    ensures PagesOk(mem', u) && Extends(t, u) && LeafOk(mem', u, free', if ok then leaf[vpn := page] else leaf, lo, hi)
    ensures Untouched(mem, mem', t, free) && (ok ==> page in mem' && mem'[page] == data)
  {
  }

  lemma ExtendsTwice(t: Tabs, u: Tabs, w: Tabs)
    requires Extends(t, u) && Extends(u, w)
    ensures Extends(t, w)
  {
  }

  lemma AllocLookups(mem: Mem, t: Tabs, free: seq<nat>, leaf: map<nat, nat>, m1: Mem, u1: Tabs, free1: seq<nat>,
                     leaf1: map<nat, nat>, m2: Mem, u2: Tabs, free2: seq<nat>, first: nat, next: nat, ok: bool,
                     page: nat, want: map<nat, NewPage>, lo: nat, hi: nat)
    requires AllocInv(mem, t, free, leaf, m1, u1, free1, leaf1, first, next, want, lo, hi)
    requires next in want && 2 <= want[next].perm < 1024
    requires AllocStep(m1, u1, free1, leaf1, m2, u2, free2, next, ok, page, want[next].perm, want[next].data, lo, hi)
    requires first <= next && (ok ==> next !in leaf1)
    ensures PagesOk(mem, t) && PagesOk(m2, u2) && Root in t && Root in u2
    ensures var leaf2, last := if ok then leaf1[next := page] else leaf1, if ok then next + 1 else next;
            forall v: nat :: Lookup(m2, u2, v) ==
              if first <= v < last then Some(MakePte(leaf2[v], want[v].perm)) else Lookup(mem, t, v)
  {
    hide Lookup, PagesOk, MakePte, LeafOk, Pages, Untouched;
  }

  lemma AllocSum(mem: Mem, t: Tabs, free: seq<nat>, leaf: map<nat, nat>, m1: Mem, u1: Tabs, free1: seq<nat>,
                 leaf1: map<nat, nat>, m2: Mem, u2: Tabs, free2: seq<nat>, first: nat, next: nat, ok: bool, page: nat,
                 want: map<nat, NewPage>, lo: nat, hi: nat)
    requires AllocInv(mem, t, free, leaf, m1, u1, free1, leaf1, first, next, want, lo, hi)
    requires next in want && 2 <= want[next].perm < 1024
    requires AllocStep(m1, u1, free1, leaf1, m2, u2, free2, next, ok, page, want[next].perm, want[next].data, lo, hi)
    requires first <= next && (ok ==> next !in leaf1)
    ensures Pages(free2) + u2.Values + (if ok then leaf1[next := page] else leaf1).Values ==
              Pages(free) + t.Values + leaf.Values
  {
    hide Lookup, PagesOk, MakePte, LeafOk, Pages, Untouched;
    if ok { AddedValue(leaf1, next, page); }
    SumNext(Pages(free), t.Values, leaf.Values, Pages(free1), u1.Values, leaf1.Values, Pages(free2), u2.Values,
      if ok then {page} else {});
  }

  lemma AllocKeeps(mem: Mem, t: Tabs, free: seq<nat>, leaf: map<nat, nat>, m1: Mem, u1: Tabs, free1: seq<nat>,
                   leaf1: map<nat, nat>, m2: Mem, first: nat, next: nat, want: map<nat, NewPage>, lo: nat, hi: nat)
    requires AllocInv(mem, t, free, leaf, m1, u1, free1, leaf1, first, next, want, lo, hi)
    requires Untouched(m1, m2, u1, free1)
    ensures Untouched(mem, m2, t, free)
    ensures forall v: nat :: v in leaf1 ==> leaf1[v] in m1 && leaf1[v] in m2 && m2[leaf1[v]] == m1[leaf1[v]]
  {
    hide Lookup, PagesOk, MakePte, LeafOk, Pages, Untouched;
    LeafsApart(m1, u1, free1, leaf1, leaf, lo, hi);
    UntouchedLeaf(mem, t, free, leaf, m1, u1, free1, leaf1, m2);
    KeptPages(m1, u1, free1, leaf1, m2, lo, hi);
  }

  lemma SumNext(f: set<nat>, t: set<nat>, l: set<nat>, f1: set<nat>, t1: set<nat>, l1: set<nat>, f2: set<nat>,
                t2: set<nat>, p: set<nat>)
    requires f1 + t1 + l1 == f + t + l && f2 + t2 + p == f1 + t1
    ensures f2 + t2 + (l1 + p) == f + t + l && f2 + t2 + l1 + p == f + t + l
  {
    assert f2 + t2 + (l1 + p) == f2 + t2 + p + l1;
  }

  lemma LeafsApart(mem: Mem, t: Tabs, free: seq<nat>, leaf: map<nat, nat>, part: map<nat, nat>, lo: nat, hi: nat)
    requires LeafOk(mem, t, free, leaf, lo, hi) && forall v: nat :: v in part ==> v in leaf && leaf[v] == part[v]
    ensures forall v: nat :: v in part ==> part[v] !in free && part[v] !in t.Values
  {
  }

  /** Owned pages keep their contents when only free pages and tables change. */
  lemma KeptPages(mem: Mem, t: Tabs, free: seq<nat>, leaf: map<nat, nat>, mem': Mem, lo: nat, hi: nat)
    requires LeafOk(mem, t, free, leaf, lo, hi) && Untouched(mem, mem', t, free)
    ensures forall v: nat :: v in leaf ==> leaf[v] in mem && leaf[v] in mem' && mem'[leaf[v]] == mem[leaf[v]]
  {
  }

  /** The new pages come out of the free ones. */
  lemma RunFits(mem: Mem, t: Tabs, free: seq<nat>, leaf: map<nat, nat>, k1: Kmem, u: Tabs, free1: seq<nat>,
                leaf1: map<nat, nat>, first: nat, next: nat, last: nat, want: map<nat, NewPage>, lo: nat, hi: nat)
    requires AllocInv(mem, t, free, leaf, k1.mem, u, free1, leaf1, first, next, want, lo, hi) && first <= next <= last
    requires SpaceOk(k1.mem, u, free1, lo, hi) && FreeOk(k1, free1, lo, hi)
    requires PagesOk(mem, t) && CanGrow(mem, t, leaf, first, last)
    ensures next - first + |free1| <= |free|
  {
    hide FreeOk, SpaceOk, AllocInv, Lookup, PagesOk, LeafOk, RunPages, CanGrow, Pages;
    RunApart(mem, t, free, leaf, k1.mem, u, free1, leaf1, first, next, want, lo, hi);
    RunSize(leaf1, first, next);
    var s := RunPages(leaf1, first, next);
    forall p | p in s + Pages(free1) ensures p in Pages(free) {
      FromFree(mem, t, free, leaf, k1.mem, u, free1, leaf1, first, next, last, want, lo, hi, p);
    }
    PagesSize(k1, free1, lo, hi);
    PagesBound(free);
    SubsetSize(s + Pages(free1), Pages(free));
  }

  lemma RunApart(mem: Mem, t: Tabs, free: seq<nat>, leaf: map<nat, nat>, m1: Mem, u: Tabs, free1: seq<nat>,
                 leaf1: map<nat, nat>, first: nat, next: nat, want: map<nat, NewPage>, lo: nat, hi: nat)
    requires AllocInv(mem, t, free, leaf, m1, u, free1, leaf1, first, next, want, lo, hi) && first <= next
    ensures forall v: nat :: first <= v < next ==> v in leaf1
    ensures forall v, w :: v in leaf1 && w in leaf1 && leaf1[v] == leaf1[w] ==> v == w
    ensures RunPages(leaf1, first, next) !! Pages(free1)
  {
    hide Lookup, PagesOk;
  }

  ghost function RunPages(leaf: map<nat, nat>, first: nat, next: nat): set<nat>
    requires first <= next && forall v: nat :: first <= v < next ==> v in leaf
  {
    set v: nat | v in leaf && first <= v < next :: leaf[v]
  }

  lemma {:induction false} RunSize(leaf: map<nat, nat>, first: nat, next: nat)
    requires first <= next && forall v: nat :: first <= v < next ==> v in leaf
    requires forall v, w :: v in leaf && w in leaf && leaf[v] == leaf[w] ==> v == w
    ensures |RunPages(leaf, first, next)| == next - first
    decreases next - first
  {
    if first < next {
      RunSize(leaf, first, next - 1);
      assert RunPages(leaf, first, next) == RunPages(leaf, first, next - 1) + {leaf[next - 1]};
    }
  }

  lemma FromFree(mem: Mem, t: Tabs, free: seq<nat>, leaf: map<nat, nat>, m1: Mem, u: Tabs, free1: seq<nat>,
                 leaf1: map<nat, nat>, first: nat, next: nat, last: nat, want: map<nat, NewPage>, lo: nat, hi: nat,
                 p: nat)
    requires AllocInv(mem, t, free, leaf, m1, u, free1, leaf1, first, next, want, lo, hi) && first <= next <= last
    requires SpaceOk(m1, u, free1, lo, hi) && PagesOk(mem, t) && CanGrow(mem, t, leaf, first, last)
    requires p in RunPages(leaf1, first, next) + Pages(free1)
    ensures p in Pages(free)
  {
    hide TreeOk, Lookup, PagesOk;
    assert p in Pages(free1) + u.Values + leaf1.Values;
    forall k | k in t ensures t[k] != p {
      assert u[k] in u.Values;
    }
    forall v | v in leaf ensures leaf[v] != p {
      assert leaf1[v] == leaf[v];
    }
  }

  lemma {:induction false} PagesBound(free: seq<nat>)
    ensures |Pages(free)| <= |free|
    decreases |free|
  {
    if free != [] {
      PagesBound(free[1..]);
      assert Pages(free) == Pages(free[1..]) + {free[0]};
    }
  }

  lemma {:induction false} DistinctSize(free: seq<nat>)
    requires forall i, j :: 0 <= i < j < |free| ==> free[i] != free[j]
    ensures |Pages(free)| == |free|
    decreases |free|
  {
    if free != [] {
      DistinctSize(free[1..]);
      assert Pages(free) == Pages(free[1..]) + {free[0]};
    }
  }

  lemma PagesSize(k: Kmem, free: seq<nat>, lo: nat, hi: nat)
    requires FreeOk(k, free, lo, hi)
    ensures |Pages(free)| == |free| == k.nfree
  {
    DistinctSize(free);
  }

  lemma RunOwned(mem: Mem, t: Tabs, free: seq<nat>, leaf: map<nat, nat>, m1: Mem, u: Tabs, free1: seq<nat>,
                 leaf1: map<nat, nat>, first: nat, next: nat, want: map<nat, NewPage>, lo: nat, hi: nat)
    requires AllocInv(mem, t, free, leaf, m1, u, free1, leaf1, first, next, want, lo, hi) && first <= next
    ensures OwnsRun(leaf1, first, next - first, true) && LeafOk(m1, u, free1, leaf1, lo, hi)
    ensures Root in t && Root in u && u[Root] == t[Root]
  {
  }

  lemma AllocUndo(mem: Mem, t: Tabs, free: seq<nat>, leaf: map<nat, nat>, m1: Mem, u: Tabs, free1: seq<nat>,
                  leaf1: map<nat, nat>, m2: Mem, free2: seq<nat>, first: nat, next: nat, last: nat,
                  want: map<nat, NewPage>, lo: nat, hi: nat)
    requires AllocInv(mem, t, free, leaf, m1, u, free1, leaf1, first, next, want, lo, hi)
    requires PagesOk(mem, t) && CanGrow(mem, t, leaf, first, last) && first <= next <= last
    requires UnmapInv(m1, u, free1, leaf1, m2, free2, first, next - first, true, lo, hi)
    ensures AllocFailed(mem, t, free, leaf, m2, u, free2, lo, hi)
  {
    hide Lookup, PagesOk, MakePte, Pages, LeafOk, Untouched;
    assert DropRun(leaf1, first, next - first, true) == leaf;
    LeafsApart(m2, u, free2, leaf, leaf, lo, hi);
    UndoUntouched(mem, t, free, leaf, m1, u, free2, m2);
  }

  lemma UndoUntouched(mem: Mem, t: Tabs, free: seq<nat>, leaf: map<nat, nat>, m1: Mem, u: Tabs, free2: seq<nat>,
                      m2: Mem)
    requires Untouched(mem, m1, t, free) && Untouched(m1, m2, u, free2)
    requires Pages(free2) + u.Values + leaf.Values == Pages(free) + t.Values + leaf.Values
    requires forall v: nat :: v in leaf ==> leaf[v] !in free2 && leaf[v] !in u.Values
    ensures Untouched(mem, m2, t, free)
  {
    forall p | p in mem && p !in free && p !in t.Values ensures p in m2 && m2[p] == mem[p] {
      if p in leaf.Values {
        var v :| v in leaf && leaf[v] == p;
      } else {
        assert p !in Pages(free) + t.Values + leaf.Values;
      }
    }
  }

  // ------------------------------------------------------------ uvmcopy

  /** A second address space, whose pages are none of the first one's. */
  ghost predicate SourceOk(mem: Mem, s: Tabs, free: seq<nat>, source: map<nat, nat>, t: Tabs, leaf: map<nat, nat>,
                           lo: nat, hi: nat) {
    && SpaceOk(mem, s, free, lo, hi) && LeafOk(mem, s, free, source, lo, hi)
    && (forall p :: p in s.Values || p in source.Values ==> p !in t.Values && p !in leaf.Values)
  }

  /** The same tables and the same contents of the owned pages. */
  ghost predicate SameSource(mem: Mem, s: Tabs, source: map<nat, nat>, mem': Mem) {
    forall p :: (p in s.Values || p in source.Values) && p in mem ==> p in mem' && mem'[p] == mem[p]
  }

  ghost predicate Copyable(mem: Mem, s: Tabs, source: map<nat, nat>)
    requires PagesOk(mem, s)
  {
    forall v: nat :: v in source ==> Lookup(mem, s, v).Some? && source[v] in mem
  }

  /** The pages of an address space, as pages to be made in another. */
  ghost function Copies(mem: Mem, s: Tabs, source: map<nat, nat>): map<nat, NewPage>
    requires PagesOk(mem, s) && Copyable(mem, s, source)
  {
    map v: nat | v in source :: NewPage(Flags(Lookup(mem, s, v).value), mem[source[v]])
  }

  lemma LookupIsValid(mem: Mem, t: Tabs, vpn: nat)
    requires PagesOk(mem, t) && Lookup(mem, t, vpn).Some?
    ensures Flags(Lookup(mem, t, vpn).value) % 2 == 1 && Flags(Lookup(mem, t, vpn).value) < 1024
  {
  }

  lemma SourceCopyable(mem: Mem, s: Tabs, free: seq<nat>, source: map<nat, nat>, t: Tabs, leaf: map<nat, nat>, lo: nat,
                       hi: nat)
    requires SourceOk(mem, s, free, source, t, leaf, lo, hi)
    ensures PagesOk(mem, s) && Copyable(mem, s, source)
  {
  }

  lemma SourceStart(mem: Mem, s: Tabs, source: map<nat, nat>)
    ensures SameSource(mem, s, source, mem)
  {
  }

  /** Everything outside the free pages and the changed tables is kept, so the source is. */
  lemma SourceFrame(mem: Mem, s: Tabs, free: seq<nat>, source: map<nat, nat>, t: Tabs, leaf: map<nat, nat>,
                    mem': Mem, free': seq<nat>, lo: nat, hi: nat)
    requires SourceOk(mem, s, free, source, t, leaf, lo, hi) && Untouched(mem, mem', t, free)
    requires Pages(free') <= Pages(free) + t.Values + leaf.Values
    ensures SourceOk(mem', s, free', source, t, leaf, lo, hi) && SameSource(mem, s, source, mem')
  {
    forall k | k in s
      ensures s[k] in s.Values && s[k] in mem && s[k] !in free' && s[k] in mem' && mem'[s[k]] == mem[s[k]]
    {
      assert s[k] in s.Values;
      assert s[k] !in Pages(free) + t.Values + leaf.Values;
    }
    forall v | v in source ensures source[v] in source.Values && source[v] !in free' && source[v] in mem' {
      assert source[v] in source.Values;
      assert source[v] !in Pages(free) + t.Values + leaf.Values;
    }
    hide Lookup, LabelsOk, Injective, EntryOk;
    TreeFrame(mem, mem', s);
    SameSourceFrame(mem, s, free, source, t, leaf, mem', lo, hi);
  }

  lemma SameSourceFrame(mem: Mem, s: Tabs, free: seq<nat>, source: map<nat, nat>, t: Tabs, leaf: map<nat, nat>,
                        mem': Mem, lo: nat, hi: nat)
    requires SourceOk(mem, s, free, source, t, leaf, lo, hi) && Untouched(mem, mem', t, free)
    ensures SameSource(mem, s, source, mem')
  {
    hide TreeOk, Lookup;
    forall p | (p in s.Values || p in source.Values) && p in mem ensures p in mem' && mem'[p] == mem[p] {
      if p in s.Values {
        var k :| k in s && s[k] == p;
      } else {
        var v :| v in source && source[v] == p;
      }
    }
  }

  lemma SourceKept(mem: Mem, s: Tabs, free: seq<nat>, source: map<nat, nat>, t: Tabs, leaf: map<nat, nat>, mem': Mem,
                   u: Tabs, free': seq<nat>, leaf': map<nat, nat>, first: nat, next: nat, want: map<nat, NewPage>,
                   lo: nat, hi: nat)
    requires SourceOk(mem, s, free, source, t, leaf, lo, hi)
    requires AllocInv(mem, t, free, leaf, mem', u, free', leaf', first, next, want, lo, hi)
    ensures SourceOk(mem', s, free', source, t, leaf, lo, hi) && SameSource(mem, s, source, mem')
  {
    hide SourceOk, SameSource, Lookup, PagesOk, LeafOk, Pages, Untouched;
    SourceFrame(mem, s, free, source, t, leaf, mem', free', lo, hi);
  }

  lemma SourceUndone(mem: Mem, s: Tabs, free: seq<nat>, source: map<nat, nat>, t: Tabs, leaf: map<nat, nat>,
                     mem': Mem, u: Tabs, free': seq<nat>, lo: nat, hi: nat)
    requires SourceOk(mem, s, free, source, t, leaf, lo, hi)
    requires AllocFailed(mem, t, free, leaf, mem', u, free', lo, hi)
    ensures SourceOk(mem', s, free', source, t, leaf, lo, hi) && SameSource(mem, s, source, mem')
  {
    hide SourceOk, SameSource, Lookup, PagesOk, LeafOk, Pages, Untouched;
    SourceFrame(mem, s, free, source, t, leaf, mem', free', lo, hi);
  }

  /** What the next round of uvmcopy reads is what the source held at the start. */
  lemma CopyReady(mem: Mem, s: Tabs, free: seq<nat>, source: map<nat, nat>, t: Tabs, leaf: map<nat, nat>,
                  mem': Mem, next: nat, n: nat, lo: nat, hi: nat)
    requires SourceOk(mem', s, free, source, t, leaf, lo, hi) && SameSource(mem, s, source, mem')
    requires PagesOk(mem, s) && Copyable(mem, s, source) && OwnsRun(source, 0, n, true) && next < n
    ensures SpaceOk(mem', s, free, lo, hi) && LeafOk(mem', s, free, source, lo, hi) && next in source
    ensures source[next] in mem' && PagesOk(mem', s) && Lookup(mem', s, next).Some?
    ensures var c := Copies(mem, s, source);
            next in c && c[next] == NewPage(Flags(Lookup(mem', s, next).value), mem'[source[next]]) &&
              2 <= c[next].perm < 1024
  {
    hide TreeOk;
    SpacePages(mem', s, free, lo, hi);
    LookupIsValid(mem', s, next);
    assert source[next] in source.Values;
    if PathLabel(0, next) in s { assert s[PathLabel(0, next)] in s.Values; }
  }

  lemma SpacePages(mem: Mem, t: Tabs, free: seq<nat>, lo: nat, hi: nat)
    requires SpaceOk(mem, t, free, lo, hi)
    ensures PagesOk(mem, t) && Root in t
  {
  }

  lemma RootFacts(mem: Mem, t: Tabs)
    requires TreeOk(mem, t)
    ensures Root in t && PagesOk(mem, t)
  {
  }

  /** What one round of walk's loop reads. */
  lemma StepFacts(mem: Mem, t: Tabs, level: nat, vpn: nat)
    requires TreeOk(mem, t) && 0 < level <= 2 && vpn < VPNS && PathLabel(level, vpn) in t
    ensures PagesOk(mem, t) && Index(level, vpn) < ENTRIES
    ensures Child(PathLabel(level, vpn), Index(level, vpn)) == PathLabel(level - 1, vpn)
    ensures var pte := mem[t[PathLabel(level, vpn)]][Index(level, vpn)];
            if PathLabel(level - 1, vpn) in t then PageTable.Valid(pte) && Ppn(pte) == t[PathLabel(level - 1, vpn)]
            else !PageTable.Valid(pte) && PathLabel(0, vpn) !in t
  {
    PathStep(level, vpn);
    assert EntryOk(mem, t, PathLabel(level, vpn), Index(level, vpn));
    if level == 2 && PathLabel(0, vpn) in t { PathUp(t, 0, vpn); }
  }
}
