/** fork, growproc and exec (kernel/proc.c, kernel/exec.c) as transformers of address spaces:
    on success the new image is what it should be, on failure nothing is lost. */
module ProcImage {
  import opened Base
  import opened PageTable
  import opened PageAlloc
  import opened VmCode
  import opened ProcMem

  // ------------------------------------------------------------ fork

  /** The pages of a child: a trapframe page and an address space, all of them free before. */
  ghost predicate ChildPages(free0: seq<nat>, free: seq<nat>, frame: nat, sp: Space) {
    && Pages(free) + {frame} + Owned(sp) == Pages(free0)
    && frame !in free && frame !in Owned(sp)
  }

  /** The copy has the permissions and the contents of the original, page by page. */
  ghost predicate Copied(mem: Mem, sp: Space, mem': Mem, cp: Space)
    requires PagesOk(mem, sp.t) && PagesOk(mem', cp.t)
  {
    && cp.n == sp.n
    && forall v: nat :: v < sp.n ==>
                          && v in sp.leaf && v in cp.leaf && sp.leaf[v] in mem && cp.leaf[v] in mem'
                          && Lookup(mem, sp.t, v).Some? && Lookup(mem', cp.t, v).Some?
                          && Flags(Lookup(mem', cp.t, v).value) == Flags(Lookup(mem, sp.t, v).value)
                          && mem'[cp.leaf[v]] == mem[sp.leaf[v]]
  }

  /** The memory of fork: allocproc, uvmcopy, and freeproc when either fails. */
  method Fork(vm: Vm, root: nat, sz: nat, tramp: nat, ghost sp: Space, ghost frame: nat)
    returns (r: Option<(nat, nat)>, ghost cp: Space)
    requires vm.Valid() && UserOk(vm.k.mem, vm.free, sp, frame, tramp, vm.lo, vm.hi)
    requires Root in sp.t && sp.t[Root] == root && sp.n == PagesFor(sz)
    modifies vm
    ensures vm.Valid() && UserOk(vm.k.mem, vm.free, sp, frame, tramp, vm.lo, vm.hi)
    ensures SameSource(old(vm.k.mem), sp.t, sp.leaf, vm.k.mem)
    ensures r.None? ==> Pages(vm.free) == Pages(old(vm.free)) && vm.k.nfree == old(vm.k.nfree)
    ensures r.None? ==> |old(vm.free)| < 6 + 3 * sp.n
    ensures r.Some? ==>
              UserOk(vm.k.mem, vm.free, cp, r.value.0, tramp, vm.lo, vm.hi) && Root in cp.t && cp.t[Root] == r.value.1
    ensures r.Some? ==> ChildPages(old(vm.free), vm.free, r.value.0, cp)
    ensures r.Some? ==> PagesOk(old(vm.k.mem), sp.t) && Copied(old(vm.k.mem), sp, vm.k.mem, cp)
  {
    hide TreeOk, FreeOk, SpaceOk, Lookup, PagesOk, LeafOk, UserOk, Pages, Kept, ChildPages, Copied, SameSource, Owned,
         PagesFor, AllocInv,
      AllocFailed, SourceOk, Copyable, Copies, CanGrow, OwnsRun;
    cp := Space(map[], map[], 0);
    UserApart(vm.k.mem, vm.free, sp, frame, tramp, vm.lo, vm.hi);
    ghost var mem0, free0 := vm.k.mem, vm.free;
    var tf, pt, t := AllocProc(vm, tramp);
    if pt.None? {
      Restored(mem0, free0, old(vm.k), sp, frame, tramp, vm.k, vm.free, vm.lo, vm.hi);
      return None, cp;
    }
    ghost var mem1, free1 := vm.k.mem, vm.free;
    ForkReady(mem0, free0, sp, frame, tramp, vm.k, vm.free, tf, t, sz, vm.lo, vm.hi);
    var ok, u, leaf := vm.Uvmcopy(root, pt.value, sz, sp.t, sp.leaf, t, map[]);
    if ok {
      cp := Space(u, leaf, sp.n);
      ForkDone(mem0, free0, sp, frame, tramp, mem1, free1, vm.k.mem, vm.free, tf, t, u, leaf, vm.lo, vm.hi);
      return Some((tf, pt.value)), cp;
    }
    ForkFailed(mem0, free0, sp, frame, tramp, mem1, free1, vm.k.mem, vm.free, tf, t, u, vm.lo, vm.hi);
    FreeProc(vm, tf, pt.value, 0, Space(u, map[], 0), tramp, free0, mem0);
    Restored(mem0, free0, old(vm.k), sp, frame, tramp, vm.k, vm.free, vm.lo, vm.hi);
    return None, cp;
  }

  /** allocproc, its memory: a trapframe page and a page table, or neither. */
  method AllocProc(vm: Vm, tramp: nat) returns (tf: nat, pt: Option<nat>, ghost t: Tabs)
    requires vm.Valid()
    modifies vm
    ensures vm.Valid() && Kept(old(vm.k.mem), vm.k.mem, Pages(old(vm.free)))
    ensures pt.None? ==> Pages(vm.free) == Pages(old(vm.free))
    ensures pt.Some? ==>
              UserOk(vm.k.mem, vm.free, Space(t, map[], 0), tf, tramp, vm.lo, vm.hi) && Root in t && t[Root] == pt.value
    ensures pt.Some? ==> ChildPages(old(vm.free), vm.free, tf, Space(t, map[], 0)) && vm.lo <= tf < vm.hi
    ensures if pt.Some? then |old(vm.free)| <= |vm.free| + 6 else |old(vm.free)| < 6
  {
    hide TreeOk, FreeOk, SpaceOk, Lookup, PagesOk, LeafOk, UserOk, Pages;
    t := map[];
    ghost var free0 := vm.free;
    var a := vm.Kalloc();
    if a.None? {
      return 0, None, t;
    }
    tf := a.value;
    FirstPage(free0);
    ghost var free1 := vm.free;
    pt, t := ProcPagetable(vm, tf, tramp);
    OwnedEmpty(t);
    if pt.None? {
      StillOut(free1, vm.free, tf);
      ghost var free2 := vm.free;
      vm.Kfree(tf);
      FirstPage([tf] + free2);
    } else {
      OutOf(free1, vm.free, t, tf);
      UserRoot(vm.k.mem, vm.free, Space(t, map[], 0), tf, tramp, vm.lo, vm.hi);
    }
  }

  lemma FirstPage(free: seq<nat>)
    requires free != []
    ensures Pages(free) == Pages(free[1..]) + {free[0]}
  {
  }

  lemma OwnedEmpty(t: Tabs)
    ensures Owned(Space(t, map[], 0)) == t.Values
  {
  }

  lemma StillOut(free1: seq<nat>, free2: seq<nat>, p: nat)
    requires Pages(free1) == Pages(free2) && p !in free1
    ensures p !in free2
  {
    assert p !in Pages(free2);
  }

  lemma OutOf(free1: seq<nat>, free2: seq<nat>, t: Tabs, p: nat)
    requires Pages(free2) + t.Values == Pages(free1) && p !in free1
    ensures p !in free2 && p !in t.Values
  {
    assert p !in Pages(free2) + t.Values;
  }

  lemma UserRoot(mem: Mem, free: seq<nat>, sp: Space, frame: nat, tramp: nat, lo: nat, hi: nat)
    requires UserOk(mem, free, sp, frame, tramp, lo, hi)
    ensures Root in sp.t && PagesOk(mem, sp.t)
  {
  }

  /** freeproc, its memory. */
  method FreeProc(vm: Vm, tf: nat, root: nat, sz: nat, ghost cp: Space, ghost tramp: nat, ghost free0: seq<nat>,
                  ghost mem0: Mem)
    requires vm.Valid() && UserOk(vm.k.mem, vm.free, cp, tf, tramp, vm.lo, vm.hi) && Root in cp.t && cp.t[Root] == root
    requires cp.n == PagesFor(sz) && ChildPages(free0, vm.free, tf, cp) && vm.lo <= tf < vm.hi &&
             Kept(mem0, vm.k.mem, Pages(free0))
    modifies vm
    ensures vm.Valid() && Pages(vm.free) == Pages(free0) && Kept(mem0, vm.k.mem, Pages(free0))
  {
    hide TreeOk, FreeOk, SpaceOk, Lookup, PagesOk, LeafOk, UserOk, Owned;
    ghost var mem1, free1 := vm.k.mem, vm.free;
    UserApart(vm.k.mem, vm.free, cp, tf, tramp, vm.lo, vm.hi);
    vm.Kfree(tf);
    FirstPage(vm.free);
    ghost var mem2, free2 := vm.k.mem, vm.free;
    assert Pages(free2) == Pages(free1) + {tf};
    UserFrame(mem1, free1, cp, tf, tramp, mem2, free2, {tf}, vm.lo, vm.hi);
    ProcFreePagetable(vm, root, sz, cp, tf, tramp);
  }

  /** What the parent and the count see once all pages taken are back. */
  lemma Restored(mem0: Mem, free0: seq<nat>, k0: Kmem, sp: Space, frame: nat, tramp: nat, k: Kmem, free: seq<nat>,
                 lo: nat, hi: nat)
    requires UserOk(mem0, free0, sp, frame, tramp, lo, hi) && FreeOk(k0, free0, lo, hi) && FreeOk(k, free, lo, hi)
    requires Pages(free) == Pages(free0) && Kept(mem0, k.mem, Pages(free0))
    ensures UserOk(k.mem, free, sp, frame, tramp, lo, hi) && SameSource(mem0, sp.t, sp.leaf, k.mem) &&
            k.nfree == k0.nfree
  {
    hide UserOk, SameSource, Pages, FreeOk, Kept;
    UserApart(mem0, free0, sp, frame, tramp, lo, hi);
    UserFrame(mem0, free0, sp, frame, tramp, k.mem, free, Pages(free0), lo, hi);
    PagesSize(k0, free0, lo, hi);
    PagesSize(k, free, lo, hi);
  }

  lemma SizeBound(sz: nat)
    requires PagesFor(sz) <= TRAPFRAME
    ensures sz <= MAXVA
  {
    assert MAXVA == 0x400_0000 * 4096;
  }

  /** Everything uvmcopy asks for. */
  lemma ForkReady(mem0: Mem, free0: seq<nat>, sp: Space, frame: nat, tramp: nat, k1: Kmem, free1: seq<nat>, tf: nat,
                  t: Tabs, sz: nat, lo: nat, hi: nat)
    requires UserOk(mem0, free0, sp, frame, tramp, lo, hi) && Kept(mem0, k1.mem, Pages(free0)) && sp.n == PagesFor(sz)
    requires UserOk(k1.mem, free1, Space(t, map[], 0), tf, tramp, lo, hi) &&
             ChildPages(free0, free1, tf, Space(t, map[], 0))
    ensures UserOk(k1.mem, free1, sp, frame, tramp, lo, hi) && SameSource(mem0, sp.t, sp.leaf, k1.mem)
    ensures SourceOk(k1.mem, sp.t, free1, sp.leaf, t, map[], lo, hi) && OwnsRun(sp.leaf, 0, PagesFor(sz), true) &&
            sz <= MAXVA
    ensures SpaceOk(k1.mem, t, free1, lo, hi) && LeafOk(k1.mem, t, free1, map[], lo, hi) && PagesOk(k1.mem, t)
    ensures CanGrow(k1.mem, t, map[], 0, PagesFor(sz))
  {
    hide Lookup, TreeOk, PagesOk, LeafOk, Pages, PagesFor, SameSource, MakePte;
    UserApart(mem0, free0, sp, frame, tramp, lo, hi);
    assert Pages(free1) !! Owned(sp);
    UserFrame(mem0, free0, sp, frame, tramp, k1.mem, free1, Pages(free0), lo, hi);
    SizeBound(sz);
    forall p | p in sp.t.Values || p in sp.leaf.Values ensures p !in t.Values {
      assert p in Owned(sp);
      assert p !in Pages(free0);
      assert p !in Owned(Space(t, map[], 0));
    }
  }

  /** uvmcopy has succeeded. */
  lemma ForkDone(mem0: Mem, free0: seq<nat>, sp: Space, frame: nat, tramp: nat, m1: Mem, free1: seq<nat>, m2: Mem,
                 free2: seq<nat>, tf: nat, t: Tabs, u: Tabs, leaf: map<nat, nat>, lo: nat, hi: nat)
    requires UserOk(mem0, free0, sp, frame, tramp, lo, hi) && UserOk(m1, free1, sp, frame, tramp, lo, hi) &&
             SameSource(mem0, sp.t, sp.leaf, m1)
    requires UserOk(m1, free1, Space(t, map[], 0), tf, tramp, lo, hi) &&
             ChildPages(free0, free1, tf, Space(t, map[], 0))
    requires SourceOk(m2, sp.t, free2, sp.leaf, t, map[], lo, hi) && SameSource(m1, sp.t, sp.leaf, m2)
    requires PagesOk(m1, sp.t) && Copyable(m1, sp.t, sp.leaf) && SpaceOk(m2, u, free2, lo, hi)
    requires AllocInv(m1, t, free1, map[], m2, u, free2, leaf, 0, sp.n, Copies(m1, sp.t, sp.leaf), lo, hi)
    ensures UserOk(m2, free2, sp, frame, tramp, lo, hi) && SameSource(mem0, sp.t, sp.leaf, m2)
    ensures UserOk(m2, free2, Space(u, leaf, sp.n), tf, tramp, lo, hi) &&
            ChildPages(free0, free2, tf, Space(u, leaf, sp.n))
    ensures Root in t && Root in u && u[Root] == t[Root]
    ensures PagesOk(mem0, sp.t) && PagesOk(m2, u) && Copied(mem0, sp, m2, Space(u, leaf, sp.n))
  {
    hide SourceOk, AllocInv, UserOk, SameSource, ChildPages, Copied, Copies, Copyable, PagesOk, SpaceOk;
    SourceIsUser(m1, free1, sp, frame, tramp, m2, free2, t, lo, hi);
    SourceChain(mem0, sp, m1, m2);
    CopyIsUser(m1, free1, sp, frame, tramp, m2, free2, tf, t, u, leaf, Copies(m1, sp.t, sp.leaf), lo, hi);
    CopyIsChild(free0, m1, free1, sp, m2, free2, tf, t, u, leaf, lo, hi);
    UserRoot(mem0, free0, sp, frame, tramp, lo, hi);
    UserRoot(m2, free2, Space(u, leaf, sp.n), tf, tramp, lo, hi);
    CopyIsCopied(mem0, free0, m1, free1, sp, frame, tramp, m2, free2, t, u, leaf, lo, hi);
  }

  lemma SourceIsUser(m1: Mem, free1: seq<nat>, sp: Space, frame: nat, tramp: nat, m2: Mem, free2: seq<nat>, t: Tabs,
                     lo: nat, hi: nat)
    requires UserOk(m1, free1, sp, frame, tramp, lo, hi)
    requires SourceOk(m2, sp.t, free2, sp.leaf, t, map[], lo, hi) && SameSource(m1, sp.t, sp.leaf, m2)
    ensures UserOk(m2, free2, sp, frame, tramp, lo, hi)
  {
    forall k | k in sp.t ensures sp.t[k] in m2 && m2[sp.t[k]] == m1[sp.t[k]] {
      assert sp.t[k] in sp.t.Values;
    }
    TreeFrame(m1, m2, sp.t);
  }

  lemma SourceChain(m0: Mem, sp: Space, m1: Mem, m2: Mem)
    requires SameSource(m0, sp.t, sp.leaf, m1) && SameSource(m1, sp.t, sp.leaf, m2)
    ensures SameSource(m0, sp.t, sp.leaf, m2)
  {
  }

  /** New pages from 0 on in an empty address space make one of `n` pages. */
  lemma CopyIsUser(m1: Mem, free1: seq<nat>, sp: Space, frame: nat, tramp: nat, m2: Mem, free2: seq<nat>,
                   tf: nat, t: Tabs, u: Tabs, leaf: map<nat, nat>, want: map<nat, NewPage>, lo: nat, hi: nat)
    requires UserOk(m1, free1, sp, frame, tramp, lo, hi) && UserOk(m1, free1, Space(t, map[], 0), tf, tramp, lo, hi)
    requires AllocInv(m1, t, free1, map[], m2, u, free2, leaf, 0, sp.n, want, lo, hi) && SpaceOk(m2, u, free2, lo, hi)
    ensures UserOk(m2, free2, Space(u, leaf, sp.n), tf, tramp, lo, hi)
    ensures Root in t && Root in u && u[Root] == t[Root]
  {
    hide TreeOk, PagesOk, Lookup, LeafOk, MakePte, Pages;
  }

  lemma CopyIsChild(free0: seq<nat>, m1: Mem, free1: seq<nat>, sp: Space, m2: Mem, free2: seq<nat>,
                    tf: nat, t: Tabs, u: Tabs, leaf: map<nat, nat>, lo: nat, hi: nat)
    requires ChildPages(free0, free1, tf, Space(t, map[], 0)) && PagesOk(m1, sp.t) && Copyable(m1, sp.t, sp.leaf)
    requires AllocInv(m1, t, free1, map[], m2, u, free2, leaf, 0, sp.n, Copies(m1, sp.t, sp.leaf), lo, hi)
    ensures ChildPages(free0, free2, tf, Space(u, leaf, sp.n))
  {
    hide TreeOk, PagesOk, Lookup, LeafOk, MakePte, Copies, Copyable;
    assert Pages(free2) + Owned(Space(u, leaf, sp.n)) == Pages(free1) + Owned(Space(t, map[], 0));
    assert tf !in Pages(free2) + Owned(Space(u, leaf, sp.n));
  }

  lemma CopyIsCopied(mem0: Mem, free0: seq<nat>, m1: Mem, free1: seq<nat>, sp: Space, frame: nat, tramp: nat, m2: Mem,
                     free2: seq<nat>, t: Tabs, u: Tabs, leaf: map<nat, nat>, lo: nat, hi: nat)
    requires UserOk(mem0, free0, sp, frame, tramp, lo, hi) && SameSource(mem0, sp.t, sp.leaf, m1) && PagesOk(mem0, sp.t)
    requires PagesOk(m1, sp.t) && Copyable(m1, sp.t, sp.leaf) && PagesOk(m2, u)
    requires AllocInv(m1, t, free1, map[], m2, u, free2, leaf, 0, sp.n, Copies(m1, sp.t, sp.leaf), lo, hi)
    ensures Copied(mem0, sp, m2, Space(u, leaf, sp.n))
  {
    hide UserOk, AllocInv, SameSource, PagesOk, Copyable, Copies, Lookup;
    forall v: nat | v < sp.n
      ensures v in sp.leaf && v in leaf && sp.leaf[v] in mem0 && leaf[v] in m2
              && Lookup(mem0, sp.t, v).Some? && Lookup(m2, u, v).Some?
              && Flags(Lookup(m2, u, v).value) == Flags(Lookup(mem0, sp.t, v).value)
              && m2[leaf[v]] == mem0[sp.leaf[v]]
    {
      SamePage(mem0, free0, m1, sp, frame, tramp, v, lo, hi);
      CopiedPage(m1, free1, sp, m2, free2, t, u, leaf, v, lo, hi);
    }
  }

  lemma SamePage(mem0: Mem, free0: seq<nat>, m1: Mem, sp: Space, frame: nat, tramp: nat, v: nat, lo: nat, hi: nat)
    requires UserOk(mem0, free0, sp, frame, tramp, lo, hi) && SameSource(mem0, sp.t, sp.leaf, m1)
    requires PagesOk(mem0, sp.t) && PagesOk(m1, sp.t) && v < sp.n
    ensures v in sp.leaf && sp.leaf[v] in mem0 && sp.leaf[v] in m1 && m1[sp.leaf[v]] == mem0[sp.leaf[v]]
    ensures Lookup(m1, sp.t, v) == Lookup(mem0, sp.t, v) && Lookup(mem0, sp.t, v).Some?
  {
    hide TreeOk;
    assert sp.leaf[v] in sp.leaf.Values;
    assert sp.t[PathLabel(0, v)] in sp.t.Values;
  }

  lemma CopiedPage(m1: Mem, free1: seq<nat>, sp: Space, m2: Mem, free2: seq<nat>, t: Tabs, u: Tabs, leaf: map<nat, nat>,
                   v: nat, lo: nat, hi: nat)
    requires PagesOk(m1, sp.t) && Copyable(m1, sp.t, sp.leaf) && PagesOk(m2, u) && v < sp.n && v in sp.leaf &&
             sp.leaf[v] in m1
    requires AllocInv(m1, t, free1, map[], m2, u, free2, leaf, 0, sp.n, Copies(m1, sp.t, sp.leaf), lo, hi)
    ensures v in leaf && leaf[v] in m2 && m2[leaf[v]] == m1[sp.leaf[v]]
    ensures Lookup(m1, sp.t, v).Some? && Lookup(m2, u, v).Some? &&
            Flags(Lookup(m2, u, v).value) == Flags(Lookup(m1, sp.t, v).value)
  {
    hide Lookup, PagesOk, LeafOk, Pages, Untouched;
    assert v in Copies(m1, sp.t, sp.leaf);
    LookupIsValid(m1, sp.t, v);
  }

  /** uvmcopy has failed: the child is an empty address space again. */
  lemma ForkFailed(mem0: Mem, free0: seq<nat>, sp: Space, frame: nat, tramp: nat, m1: Mem, free1: seq<nat>, m2: Mem,
                   free2: seq<nat>, tf: nat, t: Tabs, u: Tabs, lo: nat, hi: nat)
    requires UserOk(mem0, free0, sp, frame, tramp, lo, hi) && Kept(mem0, m1, Pages(free0))
    requires UserOk(m1, free1, Space(t, map[], 0), tf, tramp, lo, hi) &&
             ChildPages(free0, free1, tf, Space(t, map[], 0))
    requires SpaceOk(m2, u, free2, lo, hi) && AllocFailed(m1, t, free1, map[], m2, u, free2, lo, hi)
    ensures UserOk(m2, free2, Space(u, map[], 0), tf, tramp, lo, hi) && ChildPages(free0, free2, tf, Space(u, map[], 0))
    ensures Root in t && Root in u && u[Root] == t[Root] && PagesFor(0) == 0 && Kept(mem0, m2, Pages(free0))
  {
    hide TreeOk, PagesOk, Lookup, LeafOk, MakePte;
    assert Pages(free2) + Owned(Space(u, map[], 0)) == Pages(free1) + Owned(Space(t, map[], 0));
    assert tf !in Pages(free2) + Owned(Space(u, map[], 0));
    forall p | p in mem0 && p !in Pages(free0) ensures p in m2 && m2[p] == mem0[p] {
      assert p !in Pages(free1) + Owned(Space(t, map[], 0));
    }
  }

  // ------------------------------------------------------------ growing and shrinking

  /** The pages both sizes have in common keep their physical page, their entry and their
      contents; pages that are new have the given permissions and are zero. */
  ghost predicate Resized(mem: Mem, sp: Space, mem': Mem, sp': Space, perm: nat)
    requires PagesOk(mem, sp.t) && PagesOk(mem', sp'.t) && perm < 1024
  {
    && (forall v: nat :: v < sp.n && v < sp'.n ==>
          && v in sp.leaf && v in sp'.leaf && sp'.leaf[v] == sp.leaf[v]
          && Lookup(mem', sp'.t, v) == Lookup(mem, sp.t, v)
          && sp.leaf[v] in mem && sp.leaf[v] in mem' && mem'[sp.leaf[v]] == mem[sp.leaf[v]])
    && (forall v: nat :: sp.n <= v < sp'.n ==>
          && v in sp'.leaf && sp'.leaf[v] in mem' && mem'[sp'.leaf[v]] == Zeros()
          && Lookup(mem', sp'.t, v) == Some(MakePte(sp'.leaf[v], perm)))
  }

  /** One address space changes size; pages move between it and the free list only. */
  ghost predicate Moved(mem: Mem, free: seq<nat>, sp: Space, mem': Mem, free': seq<nat>, sp': Space, perm: nat) {
    && PagesOk(mem, sp.t) && PagesOk(mem', sp'.t) && perm < 1024 && Resized(mem, sp, mem', sp', perm)
    && Root in sp.t && Root in sp'.t && sp'.t[Root] == sp.t[Root]
    && Pages(free') + Owned(sp') == Pages(free) + Owned(sp)
    && Kept(mem, mem', Pages(free) + Owned(sp))
  }

  lemma GrownMoved(mem: Mem, free: seq<nat>, sp: Space, frame: nat, tramp: nat, mem': Mem, u: Tabs, free': seq<nat>,
                   leaf': map<nat, nat>, n: nat, perm: nat, lo: nat, hi: nat)
    requires UserOk(mem, free, sp, frame, tramp, lo, hi) && SpaceOk(mem', u, free', lo, hi) && sp.n <= n <= TRAPFRAME &&
             perm < 1024
    requires AllocInv(mem, sp.t, free, sp.leaf, mem', u, free', leaf', sp.n, n, NewPages(sp.n, n, perm), lo, hi)
    ensures UserOk(mem', free', Space(u, leaf', n), frame, tramp, lo, hi)
    ensures Moved(mem, free, sp, mem', free', Space(u, leaf', n), perm)
  {
    hide UserOk, SpaceOk, PagesOk, Resized, Pages, Owned, Kept, NewPages, LeafOk, Untouched, Lookup, MakePte, WantOk;
    GrownUser(mem, free, sp, frame, tramp, mem', u, free', leaf', n, NewPages(sp.n, n, perm), lo, hi);
    GrownResized(mem, free, sp, frame, tramp, mem', u, free', leaf', n, perm, lo, hi);
    UserRoot(mem, free, sp, frame, tramp, lo, hi);
    UserRoot(mem', free', Space(u, leaf', n), frame, tramp, lo, hi);
    OwnedSum(free, sp.t, sp.leaf, sp.n, free', u, leaf', n);
    UntouchedKept(mem, mem', free, sp);
  }

  lemma OwnedSum(free: seq<nat>, t: Tabs, leaf: map<nat, nat>, n: nat, free': seq<nat>, t': Tabs, leaf': map<nat, nat>,
                 n': nat)
    requires Pages(free') + t'.Values + leaf'.Values == Pages(free) + t.Values + leaf.Values
    ensures Pages(free') + Owned(Space(t', leaf', n')) == Pages(free) + Owned(Space(t, leaf, n))
  {
    assert Pages(free) + t.Values + leaf.Values == Pages(free) + Owned(Space(t, leaf, n));
  }

  lemma UntouchedKept(mem: Mem, mem': Mem, free: seq<nat>, sp: Space)
    requires Untouched(mem, mem', sp.t, free)
    ensures Kept(mem, mem', Pages(free) + Owned(sp))
  {
  }

  lemma GrownUser(mem: Mem, free: seq<nat>, sp: Space, frame: nat, tramp: nat, mem': Mem, u: Tabs, free': seq<nat>,
                  leaf': map<nat, nat>, n: nat, want: map<nat, NewPage>, lo: nat, hi: nat)
    requires UserOk(mem, free, sp, frame, tramp, lo, hi) && SpaceOk(mem', u, free', lo, hi) && sp.n <= n <= TRAPFRAME
    requires AllocInv(mem, sp.t, free, sp.leaf, mem', u, free', leaf', sp.n, n, want, lo, hi)
    ensures UserOk(mem', free', Space(u, leaf', n), frame, tramp, lo, hi)
  {
    hide TreeOk, PagesOk, Lookup, LeafOk, MakePte, Pages, Untouched;
  }

  lemma GrownResized(mem: Mem, free: seq<nat>, sp: Space, frame: nat, tramp: nat, mem': Mem, u: Tabs, free': seq<nat>,
                     leaf': map<nat, nat>, n: nat, perm: nat, lo: nat, hi: nat)
    requires UserOk(mem, free, sp, frame, tramp, lo, hi) && sp.n <= n && perm < 1024
    requires AllocInv(mem, sp.t, free, sp.leaf, mem', u, free', leaf', sp.n, n, NewPages(sp.n, n, perm), lo, hi)
    ensures PagesOk(mem, sp.t) && PagesOk(mem', u) && Resized(mem, sp, mem', Space(u, leaf', n), perm)
  {
    hide TreeOk, PagesOk, Lookup, LeafOk, MakePte, Zeros, Pages, Untouched, NewPages;
    KeptPages(mem, sp.t, free, sp.leaf, mem', lo, hi);
    WantsZero(sp.n, n, perm);
  }

  lemma WantsZero(first: nat, last: nat, perm: nat)
    ensures forall v: nat :: first <= v < last ==>
              v in NewPages(first, last, perm) && NewPages(first, last, perm)[v] == NewPage(perm, Zeros())
  {
    hide Zeros;
    assert forall v: nat :: first <= v < last ==> InRun(v, first, last);
  }

  lemma FailedMoved(mem: Mem, free: seq<nat>, sp: Space, frame: nat, tramp: nat, mem': Mem, u: Tabs, free': seq<nat>,
                    perm: nat, lo: nat, hi: nat)
    requires UserOk(mem, free, sp, frame, tramp, lo, hi) && SpaceOk(mem', u, free', lo, hi) && perm < 1024
    requires AllocFailed(mem, sp.t, free, sp.leaf, mem', u, free', lo, hi)
    ensures UserOk(mem', free', Space(u, sp.leaf, sp.n), frame, tramp, lo, hi)
    ensures Moved(mem, free, sp, mem', free', Space(u, sp.leaf, sp.n), perm)
  {
    hide TreeOk, PagesOk, Lookup, LeafOk, MakePte, Zeros, Pages, Untouched, Owned, Kept;
    UserRoot(mem, free, sp, frame, tramp, lo, hi);
    KeptPages(mem, sp.t, free, sp.leaf, mem', lo, hi);
    OwnedSum(free, sp.t, sp.leaf, sp.n, free', u, sp.leaf, sp.n);
    UntouchedKept(mem, mem', free, sp);
  }

  lemma ShrunkUser(mem: Mem, free: seq<nat>, sp: Space, frame: nat, tramp: nat, mem': Mem, free': seq<nat>, n: nat,
                   perm: nat, lo: nat, hi: nat)
    requires UserOk(mem, free, sp, frame, tramp, lo, hi) && SpaceOk(mem', sp.t, free', lo, hi) && n <= sp.n &&
             perm < 1024
    requires UnmapInv(mem, sp.t, free, sp.leaf, mem', free', n, sp.n - n, true, lo, hi)
    ensures UserOk(mem', free', Space(sp.t, DropRun(sp.leaf, n, sp.n - n, true), n), frame, tramp, lo, hi)
  {
    hide TreeOk, PagesOk, Lookup, MakePte, Zeros, Pages, LeafOk, Owned, Kept;
    UserRoot(mem, free, sp, frame, tramp, lo, hi);
  }

  lemma ShrunkSame(mem: Mem, free: seq<nat>, sp: Space, frame: nat, tramp: nat, mem': Mem, free': seq<nat>, n: nat,
                   perm: nat, lo: nat, hi: nat)
    requires UserOk(mem, free, sp, frame, tramp, lo, hi) && SpaceOk(mem', sp.t, free', lo, hi) && n <= sp.n &&
             perm < 1024
    requires UnmapInv(mem, sp.t, free, sp.leaf, mem', free', n, sp.n - n, true, lo, hi)
    ensures PagesOk(mem, sp.t) && PagesOk(mem', sp.t)
    ensures Resized(mem, sp, mem', Space(sp.t, DropRun(sp.leaf, n, sp.n - n, true), n), perm)
  {
    hide TreeOk, PagesOk, Lookup, MakePte, Zeros, Pages, LeafOk, Owned, Kept;
    UserRoot(mem, free, sp, frame, tramp, lo, hi);
    LeafInMem(mem, sp.t, free, sp.leaf, lo, hi);
    LeafInMem(mem', sp.t, free', DropRun(sp.leaf, n, sp.n - n, true), lo, hi);
  }

  lemma ShrunkMoved(mem: Mem, free: seq<nat>, sp: Space, frame: nat, tramp: nat, mem': Mem, free': seq<nat>, n: nat,
                    perm: nat, lo: nat, hi: nat)
    requires UserOk(mem, free, sp, frame, tramp, lo, hi) && SpaceOk(mem', sp.t, free', lo, hi) && n <= sp.n &&
             perm < 1024
    requires UnmapInv(mem, sp.t, free, sp.leaf, mem', free', n, sp.n - n, true, lo, hi)
    ensures UserOk(mem', free', Space(sp.t, DropRun(sp.leaf, n, sp.n - n, true), n), frame, tramp, lo, hi)
    ensures Moved(mem, free, sp, mem', free', Space(sp.t, DropRun(sp.leaf, n, sp.n - n, true), n), perm)
  {
    hide TreeOk, PagesOk, Lookup, MakePte, Zeros, Pages, LeafOk, Owned, Kept;
    var leaf' := DropRun(sp.leaf, n, sp.n - n, true);
    ShrunkUser(mem, free, sp, frame, tramp, mem', free', n, perm, lo, hi);
    UserRoot(mem, free, sp, frame, tramp, lo, hi);
    ShrunkSame(mem, free, sp, frame, tramp, mem', free', n, perm, lo, hi);
    hide UserOk, SpaceOk, Resized;
    assert Pages(free') + sp.t.Values + leaf'.Values == Pages(free) + sp.t.Values + sp.leaf.Values;
    OwnedSum(free, sp.t, sp.leaf, sp.n, free', sp.t, leaf', n);
    ShrunkKept(mem, mem', free, free', sp, leaf');
  }

  lemma ShrunkKept(mem: Mem, mem': Mem, free: seq<nat>, free': seq<nat>, sp: Space, leaf': map<nat, nat>)
    requires Untouched(mem, mem', sp.t, free') && Pages(free') + leaf'.Values == Pages(free) + sp.leaf.Values
    ensures Kept(mem, mem', Pages(free) + Owned(sp))
  {
    forall p | p in mem && p !in Pages(free) + Owned(sp) ensures p in mem' && mem'[p] == mem[p] {
      assert p !in Pages(free') + leaf'.Values;
    }
  }

  lemma LeafInMem(mem: Mem, t: Tabs, free: seq<nat>, leaf: map<nat, nat>, lo: nat, hi: nat)
    requires LeafOk(mem, t, free, leaf, lo, hi)
    ensures forall v :: v in leaf ==> leaf[v] in mem && leaf[v] !in t.Values && leaf[v] !in free
  {
  }

  /** Free pages and user pages are different managed pages. */
  lemma UserFits(k: Kmem, free: seq<nat>, sp: Space, frame: nat, tramp: nat, lo: nat, hi: nat)
    requires FreeOk(k, free, lo, hi) && UserOk(k.mem, free, sp, frame, tramp, lo, hi) && lo <= hi
    ensures sp.n + |free| <= hi - lo
  {
    hide Lookup, TreeOk, PagesOk, FreeOk, Pages, Range, RunPages;
    RunSize(sp.leaf, 0, sp.n);
    var s := RunPages(sp.leaf, 0, sp.n);
    PagesSize(k, free, lo, hi);
    RangeSize(lo, hi);
    RunInRange(k, free, sp, frame, tramp, lo, hi);
    SubsetSize(s + Pages(free), Range(lo, hi));
  }

  lemma RunInRange(k: Kmem, free: seq<nat>, sp: Space, frame: nat, tramp: nat, lo: nat, hi: nat)
    requires FreeOk(k, free, lo, hi) && UserOk(k.mem, free, sp, frame, tramp, lo, hi)
    ensures forall v: nat :: v < sp.n ==> v in sp.leaf
    ensures RunPages(sp.leaf, 0, sp.n) !! Pages(free) && RunPages(sp.leaf, 0, sp.n) + Pages(free) <= Range(lo, hi)
  {
    hide Lookup, TreeOk, PagesOk;
  }

  ghost function Range(lo: nat, hi: nat): set<nat> {
    set p: nat | p < hi && InRun(p, lo, hi)
  }

  lemma {:induction false} RangeSize(lo: nat, hi: nat)
    requires lo <= hi
    ensures |Range(lo, hi)| == hi - lo
    decreases hi
  {
    if lo < hi {
      RangeSize(lo, hi - 1);
      assert Range(lo, hi) == Range(lo, hi - 1) + {hi - 1};
    }
  }

  lemma GrowReady(k: Kmem, free: seq<nat>, sp: Space, frame: nat, tramp: nat, lo: nat, hi: nat)
    requires FreeOk(k, free, lo, hi) && UserOk(k.mem, free, sp, frame, tramp, lo, hi) && lo <= hi <= lo + TRAPFRAME
    ensures SpaceOk(k.mem, sp.t, free, lo, hi) && LeafOk(k.mem, sp.t, free, sp.leaf, lo, hi) && PagesOk(k.mem, sp.t) &&
            Root in sp.t
    ensures CanGrow(k.mem, sp.t, sp.leaf, sp.n, TRAPFRAME) && forall last: nat :: RoomFor(sp.n, last, |free|, TRAPFRAME)
  {
    hide Lookup, FreeOk, LeafOk;
    UserFits(k, free, sp, frame, tramp, lo, hi);
  }

  /** uvmalloc on the address space of a process, whose size is `sz`. */
  method UserAlloc(vm: Vm, root: nat, sz: nat, newsz: nat, xperm: nat, ghost sp: Space, ghost frame: nat,
                   ghost tramp: nat) returns (r: nat, ghost sp': Space)
    requires vm.Valid() && UserOk(vm.k.mem, vm.free, sp, frame, tramp, vm.lo, vm.hi) &&
             vm.lo <= vm.hi <= vm.lo + TRAPFRAME
    requires Root in sp.t && sp.t[Root] == root && sp.n == PagesFor(sz) && xperm in {0, 4, 8, 12}
    modifies vm
    ensures vm.Valid() && UserOk(vm.k.mem, vm.free, sp', frame, tramp, vm.lo, vm.hi)
    ensures Moved(old(vm.k.mem), old(vm.free), sp, vm.k.mem, vm.free, sp', 18 + xperm)
    ensures sp'.n == PagesFor(if r == 0 then sz else r) && (r != 0 ==> r == if newsz < sz then sz else newsz)
    ensures newsz >= sz ==> MemoryShort(r != 0 || newsz == 0, |old(vm.free)|, |vm.free|, sp.n, PagesFor(newsz))
    ensures newsz < sz ==> r == sz && vm.free == old(vm.free)
  {
    hide TreeOk, FreeOk, SpaceOk, Lookup, PagesOk, LeafOk, UserOk, AllocInv, AllocFailed, CanGrow, Moved, RoomFor,
         PagesFor, NewPages;
    GrowReady(vm.k, vm.free, sp, frame, tramp, vm.lo, vm.hi);
    ghost var mem0, free0 := vm.k.mem, vm.free;
    var ok;
    ghost var u, leaf;
    ok, r, u, leaf := vm.Uvmalloc(root, sz, newsz, xperm, sp.t, sp.leaf, TRAPFRAME);
    if newsz < sz {
      SameMoved(mem0, free0, sp, frame, tramp, 18 + xperm, vm.lo, vm.hi);
      sp' := sp;
    } else if ok {
      RoundUp(sz, newsz);
      ZeroPages(sz, newsz);
      sp' := Space(u, leaf, PagesFor(newsz));
      GrownMoved(mem0, free0, sp, frame, tramp, vm.k.mem, u, vm.free, leaf, PagesFor(newsz), 18 + xperm, vm.lo, vm.hi);
    } else {
      sp' := Space(u, sp.leaf, sp.n);
      FailedMoved(mem0, free0, sp, frame, tramp, vm.k.mem, u, vm.free, 18 + xperm, vm.lo, vm.hi);
    }
  }

  lemma ZeroPages(sz: nat, newsz: nat)
    requires newsz >= sz
    ensures newsz == 0 ==> PagesFor(newsz) == PagesFor(sz)
  {
  }

  lemma SameMoved(mem: Mem, free: seq<nat>, sp: Space, frame: nat, tramp: nat, perm: nat, lo: nat, hi: nat)
    requires UserOk(mem, free, sp, frame, tramp, lo, hi) && perm < 1024
    ensures Moved(mem, free, sp, mem, free, sp, perm)
  {
    hide Lookup;
  }

  /** growproc, with n a signed 32-bit count and sizes taken modulo 2^64. */
  method Growproc(vm: Vm, root: nat, sz: nat, n: int, ghost sp: Space, ghost frame: nat, ghost tramp: nat)
    returns (ok: bool, r: nat, ghost sp': Space)
    requires vm.Valid() && UserOk(vm.k.mem, vm.free, sp, frame, tramp, vm.lo, vm.hi) &&
             vm.lo <= vm.hi <= vm.lo + TRAPFRAME
    requires Root in sp.t && sp.t[Root] == root && sp.n == PagesFor(sz) && -0x8000_0000 <= n < 0x8000_0000
    modifies vm
    ensures vm.Valid() && UserOk(vm.k.mem, vm.free, sp', frame, tramp, vm.lo, vm.hi)
    ensures Moved(old(vm.k.mem), old(vm.free), sp, vm.k.mem, vm.free, sp', 22)
    ensures sp'.n == PagesFor(r)
    ensures ok ==> r == if sz + n < 0 then sz else sz + n
    ensures !ok ==> n > 0 && r == sz && |old(vm.free)| < 3 * (PagesFor(sz + n) - sp.n)
  {
    hide TreeOk, FreeOk, SpaceOk, Lookup, PagesOk, LeafOk, UserOk, Moved, PagesFor, UnmapInv, OwnsRun;
    SizeLimit(vm.k.mem, vm.free, sp, frame, tramp, sz, vm.lo, vm.hi);
    ghost var mem0, free0 := vm.k.mem, vm.free;
    if n > 0 {
      r, sp' := UserAlloc(vm, root, sz, sz + n, 4, sp, frame, tramp);
      if r == 0 {
        return false, sz, sp';
      }
    } else if n < 0 {
      var newsz := (sz + n) % 0x1_0000_0000_0000_0000;
      ShrinkReady(vm.k, vm.free, sp, frame, tramp, sz, newsz, vm.lo, vm.hi);
      r := vm.Uvmdealloc(root, sz, newsz, sp.t, sp.leaf);
      if newsz >= sz {
        sp' := Space(sp.t, DropRun(sp.leaf, PagesFor(newsz), 0, true), sp.n);
        NoneDropped(mem0, free0, sp, frame, tramp, vm.k.mem, vm.free, newsz, vm.lo, vm.hi);
      } else {
        sp' := Space(sp.t, DropRun(sp.leaf, PagesFor(newsz), sp.n - PagesFor(newsz), true), PagesFor(newsz));
        ShrunkMoved(mem0, free0, sp, frame, tramp, vm.k.mem, vm.free, PagesFor(newsz), 22, vm.lo, vm.hi);
      }
    } else {
      r, sp' := sz, sp;
      SameMoved(mem0, free0, sp, frame, tramp, 22, vm.lo, vm.hi);
    }
    ok := true;
  }

  lemma SizeLimit(mem: Mem, free: seq<nat>, sp: Space, frame: nat, tramp: nat, sz: nat, lo: nat, hi: nat)
    requires UserOk(mem, free, sp, frame, tramp, lo, hi) && sp.n == PagesFor(sz)
    ensures sz <= MAXVA
  {
    SizeBound(sz);
  }

  lemma ShrinkReady(k: Kmem, free: seq<nat>, sp: Space, frame: nat, tramp: nat, sz: nat, newsz: nat, lo: nat, hi: nat)
    requires FreeOk(k, free, lo, hi) && UserOk(k.mem, free, sp, frame, tramp, lo, hi) && sp.n == PagesFor(sz)
    ensures SpaceOk(k.mem, sp.t, free, lo, hi) && LeafOk(k.mem, sp.t, free, sp.leaf, lo, hi) && PagesOk(k.mem, sp.t) &&
            Root in sp.t
    ensures newsz < sz ==>
              PagesFor(newsz) <= PagesFor(sz) && OwnsRun(sp.leaf, PagesFor(newsz), PagesFor(sz) - PagesFor(newsz), true)
  {
    hide Lookup, FreeOk, LeafOk;
    if newsz < sz { RoundUp(newsz, sz); }
  }

  lemma NoneDropped(mem: Mem, free: seq<nat>, sp: Space, frame: nat, tramp: nat, mem': Mem, free': seq<nat>, newsz: nat,
                    lo: nat, hi: nat)
    requires UserOk(mem, free, sp, frame, tramp, lo, hi) && SpaceOk(mem', sp.t, free', lo, hi)
    requires UnmapInv(mem, sp.t, free, sp.leaf, mem', free', PagesFor(newsz), 0, true, lo, hi)
    ensures var sp' := Space(sp.t, DropRun(sp.leaf, PagesFor(newsz), 0, true), sp.n);
            UserOk(mem', free', sp', frame, tramp, lo, hi) && Moved(mem, free, sp, mem', free', sp', 22)
  {
    hide Lookup, TreeOk;
    assert DropRun(sp.leaf, PagesFor(newsz), 0, true) == sp.leaf;
    assert DropRun(sp.leaf, sp.n, 0, true) == sp.leaf;
    ShrunkMoved(mem, free, sp, frame, tramp, mem', free', sp.n, 22, lo, hi);
  }
}
