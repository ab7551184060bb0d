/** The memory of a process: kernel/proc.c (proc_pagetable, proc_freepagetable, allocproc,
    freeproc, growproc, fork) and kernel/exec.c, as far as they take and give back pages. */
module ProcMem {
  import opened Base
  import opened PageTable
  import opened PageAlloc
  import opened VmCode
  import opened VmFree

  const TRAMPOLINE: nat := 0x3FF_FFFF  // page numbers
  const TRAPFRAME: nat := 0x3FF_FFFE

  /** The tables and the owned pages of an address space of `n` user pages. */
  datatype Space = Space(t: Tabs, leaf: map<nat, nat>, n: nat)

  function Owned(sp: Space): set<nat> {
    sp.t.Values + sp.leaf.Values
  }

  /** User pages from 0 to `n`, all owned; the trapframe and the trampoline, not owned; nothing
      else is mapped. */
  ghost predicate UserOk(mem: Mem, free: seq<nat>, sp: Space, frame: nat, tramp: nat, lo: nat, hi: nat) {
    && SpaceOk(mem, sp.t, free, lo, hi) && LeafOk(mem, sp.t, free, sp.leaf, lo, hi)
    && PagesOk(mem, sp.t) && sp.n <= TRAPFRAME
    && (forall v: nat :: v in sp.leaf <==> v < sp.n)
    && Lookup(mem, sp.t, TRAPFRAME) == Some(MakePte(frame, 6)) &&
       Lookup(mem, sp.t, TRAMPOLINE) == Some(MakePte(tramp, 10))
    && (forall v: nat :: v != TRAPFRAME && v != TRAMPOLINE && v !in sp.leaf ==> Lookup(mem, sp.t, v).None?)
  }

  /** Pages outside `s` keep their contents. */
  ghost predicate Kept(mem: Mem, mem': Mem, s: set<nat>) {
    forall p :: p in mem && p !in s ==> p in mem' && mem'[p] == mem[p]
  }

  // ------------------------------------------------------------ uvmcreate and uvmfree

  lemma EmptyTree(mem: Mem, page: nat)
    requires page in mem && mem[page] == Zeros()
    ensures var t: Tabs := map[Root := page];
            TreeOk(mem, t) && PagesOk(mem, t) && t.Values == {page} && forall v: nat :: Lookup(mem, t, v).None?
  {
    var t: Tabs := map[Root := page];
    assert t[Root] in t.Values;
    forall k, i | k in t && k.level > 0 && 0 <= i < ENTRIES ensures EntryOk(mem, t, k, i) {
    }
  }

  /** uvmcreate. */
  method Uvmcreate(vm: Vm) returns (r: Option<nat>, ghost t: Tabs)
    requires vm.Valid()
    modifies vm
    ensures vm.Valid() && Kept(old(vm.k.mem), vm.k.mem, Pages(old(vm.free)))
    ensures r.None? ==> vm.free == old(vm.free) == []
    ensures r.Some? ==>
              vm.Space(t) && t[Root] == r.value && PagesOk(vm.k.mem, t) && forall v: nat :: Lookup(vm.k.mem, t, v).None?
    ensures r.Some? ==> Pages(vm.free) + t.Values == Pages(old(vm.free)) && |old(vm.free)| == |vm.free| + 1
  {
    t := map[];
    ghost var free0 := vm.free;
    r := vm.Kalloc();
    if r.Some? {
      FreeFrame(vm.k, vm.k.mem[r.value := Zeros()], vm.free, vm.lo, vm.hi);
      vm.k := vm.k.(mem := vm.k.mem[r.value := Zeros()]);
      t := map[Root := r.value];
      EmptyTree(vm.k.mem, r.value);
      assert Pages(free0) == Pages(free0[1..]) + {r.value};
    }
  }

  /** uvmfree: every page of the address space goes back to the free list. */
  method Uvmfree(vm: Vm, root: nat, sz: nat, ghost t: Tabs, ghost leaf: map<nat, nat>)
    requires vm.Valid() && vm.Space(t) && t[Root] == root && LeafOk(vm.k.mem, t, vm.free, leaf, vm.lo, vm.hi)
    requires PagesFor(sz) <= TRAPFRAME && PagesOk(vm.k.mem, t)
    requires forall v: nat :: v in leaf <==> v < PagesFor(sz)
    requires forall v: nat :: v !in leaf ==> Lookup(vm.k.mem, t, v).None?
    modifies vm
    ensures vm.Valid() && Pages(vm.free) == Pages(old(vm.free)) + t.Values + leaf.Values
    ensures Kept(old(vm.k.mem), vm.k.mem, Pages(old(vm.free)) + t.Values + leaf.Values)
  {
    hide TreeOk, FreeOk, SpaceOk, Lookup, PagesOk, LeafOk, UnmapInv, OwnsRun, MappedLeaves, Ready, TabsOk, Pages, Kept;
    ghost var n := PagesFor(sz);
    UnmapStart(vm.k.mem, t, vm.free, leaf, 0, true, vm.lo, vm.hi);
    if sz > 0 {
      WholeRun(leaf, n);
      OwnedAreMapped(vm.k.mem, t, vm.free, leaf, 0, n, vm.lo, vm.hi);
      vm.UnmapRun(root, 0, PagesFor(sz), true, t, leaf, 0);
    }
    ghost var mem1, free1 := vm.k.mem, vm.free;
    AllUnmapped(old(vm.k.mem), t, old(vm.free), leaf, mem1, free1, n, vm.lo, vm.hi);
    NothingMapped(mem1, t, free1, vm.lo, vm.hi);
    assert Root in t by { SpacePages(mem1, t, free1, vm.lo, vm.hi); }
    Freewalk(vm, root, t, Root);
    FreedWhole(old(vm.k.mem), t, old(vm.free), leaf, mem1, free1, vm.k.mem, vm.free);
  }

  lemma WholeRun(leaf: map<nat, nat>, n: nat)
    requires forall v: nat :: v in leaf <==> v < n
    ensures OwnsRun(leaf, 0, n, true)
  {
  }

  lemma AllUnmapped(mem: Mem, t: Tabs, free: seq<nat>, leaf: map<nat, nat>, m1: Mem, free1: seq<nat>, n: nat, lo: nat,
                    hi: nat)
    requires UnmapInv(mem, t, free, leaf, m1, free1, 0, n, true, lo, hi)
    requires forall v: nat :: v in leaf <==> v < n
    requires PagesOk(mem, t) && forall v: nat :: v !in leaf ==> Lookup(mem, t, v).None?
    ensures PagesOk(m1, t) && forall v: nat :: Lookup(m1, t, v).None?
    ensures Pages(free1) == Pages(free) + leaf.Values && Untouched(mem, m1, t, free1)
  {
    hide Lookup, PagesOk, LeafOk, Pages;
    assert DropRun(leaf, 0, n, true) == map[];
    assert DropRun(leaf, 0, n, true).Values == {};
  }

  lemma FreedWhole(mem: Mem, t: Tabs, free: seq<nat>, leaf: map<nat, nat>, m1: Mem, free1: seq<nat>, m2: Mem,
                   free2: seq<nat>)
    requires Pages(free1) == Pages(free) + leaf.Values && Untouched(mem, m1, t, free1)
    requires Pages(free2) == Pages(free1) + t.Values
    requires forall p :: p in m1 && p !in t.Values ==> p in m2 && m2[p] == m1[p]
    ensures Pages(free2) == Pages(free) + t.Values + leaf.Values
    ensures Kept(mem, m2, Pages(free) + t.Values + leaf.Values)
  {
    forall p | p in mem && p !in Pages(free) + t.Values + leaf.Values ensures p in m2 && m2[p] == mem[p] {
      assert p !in Pages(free1);
    }
  }

  // ------------------------------------------------------------ proc_pagetable

  /** Mapped pages of a user page table without user memory. */
  ghost predicate Maps(mem: Mem, t: Tabs, trampoline: Option<nat>, frame: Option<nat>)
    requires PagesOk(mem, t)
  {
    forall v: nat :: Lookup(mem, t, v) ==
                     if v == TRAMPOLINE && trampoline.Some? then Some(MakePte(trampoline.value, 10))
                     else if v == TRAPFRAME && frame.Some? then Some(MakePte(frame.value, 6)) else None
  }

  /** A page table made of pages that were free in the beginning. */
  ghost predicate Built(mem0: Mem, free0: seq<nat>, mem: Mem, t: Tabs, free: seq<nat>, tramp: Option<nat>,
                        frame: Option<nat>) {
    && PagesOk(mem, t) && Maps(mem, t, tramp, frame) && Root in t
    && Pages(free) + t.Values == Pages(free0) && Kept(mem0, mem, Pages(free0))
  }

  /** proc_pagetable. When it fails, exactly the pages it took are free again. */
  method ProcPagetable(vm: Vm, frame: nat, tramp: nat) returns (r: Option<nat>, ghost t: Tabs)
    requires vm.Valid()
    modifies vm
    ensures vm.Valid() && Kept(old(vm.k.mem), vm.k.mem, Pages(old(vm.free)))
    ensures r.None? ==> Pages(vm.free) == Pages(old(vm.free))
    ensures r.Some? ==> UserOk(vm.k.mem, vm.free, Space(t, map[], 0), frame, tramp, vm.lo, vm.hi) && t[Root] == r.value
    ensures r.Some? ==> Pages(vm.free) + t.Values == Pages(old(vm.free))
    ensures if r.Some? then |old(vm.free)| <= |vm.free| + 5 else |old(vm.free)| < 5
  {
    hide TreeOk, FreeOk, SpaceOk, Lookup, PagesOk, LeafOk, MapInv, UnmapInv, Pages, Kept, Built, UserOk, Maps;
    r, t := Uvmcreate(vm);
    if r.None? {
      return;
    }
    BuiltEmpty(old(vm.k.mem), old(vm.free), vm.k.mem, t, vm.free, vm.lo, vm.hi);
    var ok, u := MapFixed(vm, r.value, TRAMPOLINE, tramp, 10, t, old(vm.k.mem), old(vm.free), None, None);
    t := u;
    if ok {
      ok, u := MapFixed(vm, r.value, TRAPFRAME, frame, 6, t, old(vm.k.mem), old(vm.free), Some(tramp), None);
      t := u;
      if !ok {
        UnmapFixed(vm, r.value, TRAMPOLINE, t, old(vm.k.mem), old(vm.free), Some(tramp), None);
      }
    }
    if !ok {
      FreeBuilt(vm, r.value, t, old(vm.k.mem), old(vm.free));
      r := None;
    } else {
      BuiltUser(old(vm.k.mem), old(vm.free), vm.k.mem, t, vm.free, tramp, frame, vm.lo, vm.hi);
    }
  }

  lemma BuiltEmpty(mem0: Mem, free0: seq<nat>, mem: Mem, t: Tabs, free: seq<nat>, lo: nat, hi: nat)
    requires SpaceOk(mem, t, free, lo, hi) && PagesOk(mem, t) && forall v: nat :: Lookup(mem, t, v).None?
    requires Pages(free) + t.Values == Pages(free0) && Kept(mem0, mem, Pages(free0))
    ensures Built(mem0, free0, mem, t, free, None, None)
  {
  }

  lemma BuiltUser(mem0: Mem, free0: seq<nat>, mem: Mem, t: Tabs, free: seq<nat>, tramp: nat, frame: nat, lo: nat,
                  hi: nat)
    requires SpaceOk(mem, t, free, lo, hi) && Built(mem0, free0, mem, t, free, Some(tramp), Some(frame))
    ensures UserOk(mem, free, Space(t, map[], 0), frame, tramp, lo, hi) && Kept(mem0, mem, Pages(free0))
    ensures Pages(free) + t.Values == Pages(free0)
  {
    hide Lookup, TreeOk, Pages;
  }

  /** mappages of one fixed page; `tramp` and `frame` say what is mapped already. */
  method MapFixed(vm: Vm, root: nat, vpn: nat, page: nat, perm: nat, ghost t: Tabs, ghost mem0: Mem,
                  ghost free0: seq<nat>, ghost tramp: Option<nat>, ghost frame: Option<nat>)
    returns (ok: bool, ghost u: Tabs)
    requires vm.Valid() && vm.Space(t) && Root in t && t[Root] == root &&
             Built(mem0, free0, vm.k.mem, t, vm.free, tramp, frame)
    requires (vpn == TRAMPOLINE && tramp.None? && perm == 10) || (vpn == TRAPFRAME && frame.None? && perm == 6)
    modifies vm
    ensures vm.Valid() && vm.Space(u) && Root in u && u[Root] == root
    ensures Built(mem0, free0, vm.k.mem, u, vm.free, if ok && vpn == TRAMPOLINE then Some(page) else tramp,
                  if ok && vpn == TRAPFRAME then Some(page) else frame)
    ensures if ok then |old(vm.free)| <= |vm.free| + 2 else |old(vm.free)| < 2
  {
    hide TreeOk, FreeOk, SpaceOk, Lookup, PagesOk, MapInv, Pages, Kept, Built, Unmapped;
    BuiltGap(mem0, free0, vm.k.mem, t, vm.free, tramp, frame, vpn);
    ghost var mem1, free1 := vm.k.mem, vm.free;
    ghost var done;
    ok, u, done := vm.MapRun(root, vpn * 4096, 4096, page * 4096, perm, t, vpn, 1, page);
    BuiltMapped(mem0, free0, mem1, t, free1, vm.k.mem, u, vm.free, vpn, page, perm, ok, tramp, frame);
  }

  lemma BuiltGap(mem0: Mem, free0: seq<nat>, mem: Mem, t: Tabs, free: seq<nat>, tramp: Option<nat>, frame: Option<nat>,
                 vpn: nat)
    requires Built(mem0, free0, mem, t, free, tramp, frame)
    requires (vpn == TRAMPOLINE && tramp.None?) || (vpn == TRAPFRAME && frame.None?)
    ensures PagesOk(mem, t) && Unmapped(mem, t, vpn, 1)
  {
    hide Lookup, Pages;
  }

  lemma BuiltMapped(mem0: Mem, free0: seq<nat>, m1: Mem, t: Tabs, free1: seq<nat>, m2: Mem, u: Tabs, free2: seq<nat>,
                    vpn: nat, page: nat, perm: nat, ok: bool, tramp: Option<nat>, frame: Option<nat>)
    requires Built(mem0, free0, m1, t, free1, tramp, frame)
    requires (vpn == TRAMPOLINE && tramp.None? && perm == 10) || (vpn == TRAPFRAME && frame.None? && perm == 6)
    requires MapInv(m1, t, free1, m2, u, free2, vpn, if ok then 1 else 0, page, perm)
    ensures Built(mem0, free0, m2, u, free2, if ok && vpn == TRAMPOLINE then Some(page) else tramp,
                  if ok && vpn == TRAPFRAME then Some(page) else frame)
    ensures Root in u && u[Root] == t[Root]
  {
    hide Lookup, PagesOk, MakePte;
    forall p | p in mem0 && p !in Pages(free0) ensures p in m2 && m2[p] == mem0[p] {
      assert p !in Pages(free1) + t.Values;
    }
  }

  /** uvmunmap of the trampoline or the trapframe page, which are not freed. */
  method UnmapFixed(vm: Vm, root: nat, vpn: nat, ghost t: Tabs, ghost mem0: Mem, ghost free0: seq<nat>,
                    ghost tramp: Option<nat>, ghost frame: Option<nat>)
    requires vm.Valid() && vm.Space(t) && Root in t && t[Root] == root &&
             Built(mem0, free0, vm.k.mem, t, vm.free, tramp, frame)
    requires (vpn == TRAMPOLINE && tramp.Some?) || (vpn == TRAPFRAME && frame.Some?)
    modifies vm
    ensures vm.Valid() && vm.Space(t)
    ensures Built(mem0, free0, vm.k.mem, t, vm.free, if vpn == TRAMPOLINE then None else tramp,
                  if vpn == TRAPFRAME then None else frame)
  {
    hide TreeOk, FreeOk, SpaceOk, Lookup, PagesOk, LeafOk, UnmapInv, Pages, Kept, Built, OwnsRun, MappedLeaves;
    BuiltOver(mem0, free0, vm.k.mem, t, vm.free, tramp, frame, vpn, vm.lo, vm.hi);
    ghost var mem1, free1 := vm.k.mem, vm.free;
    vm.UnmapRun(root, vpn * 4096, 1, false, t, map[], vpn);
    BuiltUnmapped(mem0, free0, mem1, t, free1, vm.k.mem, vm.free, vpn, tramp, frame, vm.lo, vm.hi);
  }

  lemma BuiltOver(mem0: Mem, free0: seq<nat>, mem: Mem, t: Tabs, free: seq<nat>, tramp: Option<nat>, frame: Option<nat>,
                  vpn: nat, lo: nat, hi: nat)
    requires Built(mem0, free0, mem, t, free, tramp, frame)
    requires (vpn == TRAMPOLINE && tramp.Some?) || (vpn == TRAPFRAME && frame.Some?)
    ensures PagesOk(mem, t) && MappedLeaves(mem, t, vpn, 1) && OwnsRun(map[], vpn, 1, false) &&
            LeafOk(mem, t, free, map[], lo, hi)
  {
    hide Lookup, Pages;
  }

  lemma BuiltUnmapped(mem0: Mem, free0: seq<nat>, m1: Mem, t: Tabs, free1: seq<nat>, m2: Mem, free2: seq<nat>,
                      vpn: nat, tramp: Option<nat>, frame: Option<nat>, lo: nat, hi: nat)
    requires Built(mem0, free0, m1, t, free1, tramp, frame)
    requires (vpn == TRAMPOLINE && tramp.Some?) || (vpn == TRAPFRAME && frame.Some?)
    requires UnmapInv(m1, t, free1, map[], m2, free2, vpn, 1, false, lo, hi)
    ensures Built(mem0, free0, m2, t, free2, if vpn == TRAMPOLINE then None else tramp,
                  if vpn == TRAPFRAME then None else frame)
  {
    hide Lookup, PagesOk, MakePte;
    assert Pages(free2) == Pages(free1);
    forall p | p in mem0 && p !in Pages(free0) ensures p in m2 && m2[p] == mem0[p] {
      assert p !in Pages(free1) + t.Values;
      assert p !in Pages(free2);
    }
  }

  /** uvmfree(pagetable, 0) of a page table that maps nothing any more. */
  method FreeBuilt(vm: Vm, root: nat, ghost t: Tabs, ghost mem0: Mem, ghost free0: seq<nat>)
    requires vm.Valid() && vm.Space(t) && Root in t && t[Root] == root &&
             Built(mem0, free0, vm.k.mem, t, vm.free, None, None)
    modifies vm
    ensures vm.Valid() && Pages(vm.free) == Pages(free0) && Kept(mem0, vm.k.mem, Pages(free0))
  {
    hide TreeOk, FreeOk, SpaceOk, Lookup, Pages;
    ghost var mem1, free1 := vm.k.mem, vm.free;
    assert PagesFor(0) == 0;
    Uvmfree(vm, root, 0, t, map[]);
    assert Pages(free1) + t.Values + {} == Pages(free0);
  }

  // ------------------------------------------------------------ proc_freepagetable

  /** proc_freepagetable: the whole address space goes back to the free list. */
  method ProcFreePagetable(vm: Vm, root: nat, sz: nat, ghost sp: Space, ghost frame: nat, ghost tramp: nat)
    requires vm.Valid() && UserOk(vm.k.mem, vm.free, sp, frame, tramp, vm.lo, vm.hi)
    requires Root in sp.t && sp.t[Root] == root && sp.n == PagesFor(sz)
    modifies vm
    ensures vm.Valid() && Pages(vm.free) == Pages(old(vm.free)) + Owned(sp)
    ensures Kept(old(vm.k.mem), vm.k.mem, Pages(old(vm.free)) + Owned(sp))
  {
    hide TreeOk, FreeOk, SpaceOk, Lookup, PagesOk, LeafOk, UnmapInv, Pages, Kept, OwnsRun, MappedLeaves, UserOk, PartOk;
    ghost var t, leaf, mem0, free0 := sp.t, sp.leaf, vm.k.mem, vm.free;
    PartStart(vm.k.mem, vm.free, sp, frame, tramp, vm.lo, vm.hi);
    PartOver(mem0, free0, vm.k.mem, vm.free, sp, TRAMPOLINE, true, true, vm.lo, vm.hi);
    vm.UnmapRun(root, TRAMPOLINE * 4096, 1, false, t, leaf, TRAMPOLINE);
    PartNext(mem0, free0, mem0, free0, vm.k.mem, vm.free, sp, TRAMPOLINE, true, true, vm.lo, vm.hi);
    ghost var mem1, free1 := vm.k.mem, vm.free;
    PartOver(mem0, free0, vm.k.mem, vm.free, sp, TRAPFRAME, false, true, vm.lo, vm.hi);
    vm.UnmapRun(root, TRAPFRAME * 4096, 1, false, t, leaf, TRAPFRAME);
    PartNext(mem0, free0, mem1, free1, vm.k.mem, vm.free, sp, TRAPFRAME, false, true, vm.lo, vm.hi);
    ghost var mem2 := vm.k.mem;
    PartDone(mem0, free0, vm.k.mem, vm.free, sp, vm.lo, vm.hi);
    Uvmfree(vm, root, sz, t, leaf);
    PartFreed(mem0, free0, mem2, vm.k.mem, sp);
  }

  /** An address space whose trampoline or trapframe mapping may be gone. */
  ghost predicate PartOk(mem0: Mem, free0: seq<nat>, mem: Mem, free: seq<nat>, sp: Space, tramp: bool, frame: bool,
                         lo: nat, hi: nat) {
    && free == free0 && sp.n <= TRAPFRAME
    && LeafOk(mem, sp.t, free, sp.leaf, lo, hi) && PagesOk(mem, sp.t)
    && (forall v: nat :: v in sp.leaf <==> v < sp.n)
    && (forall v: nat :: v !in sp.leaf ==>
         (Lookup(mem, sp.t, v).Some? <==> (v == TRAMPOLINE && tramp) || (v == TRAPFRAME && frame)))
    && (forall v: nat :: v !in sp.leaf && Lookup(mem, sp.t, v).Some? ==> Flags(Lookup(mem, sp.t, v).value) != 1)
    && Kept(mem0, mem, Pages(free0) + Owned(sp))
  }

  lemma PartStart(mem: Mem, free: seq<nat>, sp: Space, frame: nat, tramp: nat, lo: nat, hi: nat)
    requires UserOk(mem, free, sp, frame, tramp, lo, hi)
    ensures PartOk(mem, free, mem, free, sp, true, true, lo, hi) && SpaceOk(mem, sp.t, free, lo, hi)
  {
    hide Lookup, TreeOk, LeafOk, PagesOk, Pages;
  }

  lemma PartOver(mem0: Mem, free0: seq<nat>, mem: Mem, free: seq<nat>, sp: Space, vpn: nat, tramp: bool, frame: bool,
                 lo: nat, hi: nat)
    requires PartOk(mem0, free0, mem, free, sp, tramp, frame, lo, hi)
    requires (vpn == TRAMPOLINE && tramp) || (vpn == TRAPFRAME && frame)
    ensures LeafOk(mem, sp.t, free, sp.leaf, lo, hi) && PagesOk(mem, sp.t)
    ensures MappedLeaves(mem, sp.t, vpn, 1) && OwnsRun(sp.leaf, vpn, 1, false)
  {
    hide Lookup, LeafOk, PagesOk, Pages;
  }

  lemma PartNext(mem0: Mem, free0: seq<nat>, m1: Mem, free1: seq<nat>, m2: Mem, free2: seq<nat>, sp: Space, vpn: nat,
                 tramp: bool, frame: bool, lo: nat, hi: nat)
    requires PartOk(mem0, free0, m1, free1, sp, tramp, frame, lo, hi)
    requires (vpn == TRAMPOLINE && tramp) || (vpn == TRAPFRAME && frame)
    requires UnmapInv(m1, sp.t, free1, sp.leaf, m2, free2, vpn, 1, false, lo, hi)
    ensures PartOk(mem0, free0, m2, free2, sp, tramp && vpn != TRAMPOLINE, frame && vpn != TRAPFRAME, lo, hi)
  {
    hide Lookup, LeafOk, PagesOk;
  }

  lemma PartDone(mem0: Mem, free0: seq<nat>, mem: Mem, free: seq<nat>, sp: Space, lo: nat, hi: nat)
    requires PartOk(mem0, free0, mem, free, sp, false, false, lo, hi)
    ensures free == free0 && LeafOk(mem, sp.t, free, sp.leaf, lo, hi) && PagesOk(mem, sp.t) && sp.n <= TRAPFRAME
    ensures (forall v: nat :: v in sp.leaf <==> v < sp.n) &&
            (forall v: nat :: v !in sp.leaf ==> Lookup(mem, sp.t, v).None?)
    ensures Kept(mem0, mem, Pages(free0) + Owned(sp))
  {
    hide Lookup, LeafOk, PagesOk, Pages;
  }

  lemma PartFreed(mem0: Mem, free0: seq<nat>, m1: Mem, m2: Mem, sp: Space)
    requires Kept(mem0, m1, Pages(free0) + Owned(sp)) && Kept(m1, m2, Pages(free0) + sp.t.Values + sp.leaf.Values)
    ensures Kept(mem0, m2, Pages(free0) + Owned(sp))
    ensures Pages(free0) + sp.t.Values + sp.leaf.Values == Pages(free0) + Owned(sp)
  {
    assert Pages(free0) + sp.t.Values + sp.leaf.Values == Pages(free0) + Owned(sp);
  }

  // ------------------------------------------------------------ other address spaces

  /** Changes elsewhere leave an address space and its contents alone. */
  lemma UserFrame(mem: Mem, free: seq<nat>, sp: Space, frame: nat, tramp: nat, mem': Mem, free': seq<nat>, s: set<nat>,
                  lo: nat, hi: nat)
    requires UserOk(mem, free, sp, frame, tramp, lo, hi) && Kept(mem, mem', s)
    requires s !! Owned(sp) && Pages(free') !! Owned(sp)
    ensures UserOk(mem', free', sp, frame, tramp, lo, hi) && SameSource(mem, sp.t, sp.leaf, mem')
  {
    forall k | k in sp.t ensures sp.t[k] in sp.t.Values && sp.t[k] in mem && sp.t[k] !in s && sp.t[k] !in free' {
      assert sp.t[k] in sp.t.Values;
      assert sp.t[k] in Owned(sp);
    }
    forall v | v in sp.leaf ensures sp.leaf[v] in Owned(sp) && sp.leaf[v] !in s && sp.leaf[v] !in free' {
      assert sp.leaf[v] in sp.leaf.Values;
      assert sp.leaf[v] in Owned(sp);
    }
    TreeFrame(mem, mem', sp.t);
  }

  lemma UserApart(mem: Mem, free: seq<nat>, sp: Space, frame: nat, tramp: nat, lo: nat, hi: nat)
    requires UserOk(mem, free, sp, frame, tramp, lo, hi)
    ensures Pages(free) !! Owned(sp)
  {
    hide Lookup, TreeOk, PagesOk;
  }
}
