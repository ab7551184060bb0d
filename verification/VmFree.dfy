/** kernel/vm.c, freewalk and uvmfree: taking a page table apart. */
module VmFree {
  import opened PageTable
  import opened PageAlloc
  import opened VmCode

  // ------------------------------------------------------------ subtrees

  function Parent(j: Label): Label {
    Label(j.level + 1, j.prefix / 512)
  }

  /** The table at a higher level on the way to `j`. */
  function Above(j: Label, level: nat): Label
    requires j.level <= level
    decreases level - j.level
  {
    if j.level == level then j else Above(Parent(j), level)
  }

  predicate Under(j: Label, at: Label) {
    j.level <= at.level && Above(j, at.level) == at
  }

  predicate Below(j: Label, at: Label) {
    j.level < at.level && Above(j, at.level) == at
  }

  /** Through which entry of `at` the way to `j` goes. */
  function Branch(j: Label, at: Label): nat
    requires j.level < at.level
  {
    Above(j, at.level - 1).prefix % 512
  }

  lemma {:induction false} AboveStep(j: Label, level: nat)
    requires j.level < level
    ensures Above(j, level) == Parent(Above(j, level - 1))
    decreases level - j.level
  {
    if j.level + 1 < level { AboveStep(Parent(j), level); }
  }

  lemma {:induction false} AboveLevel(j: Label, level: nat)
    requires j.level <= level
    ensures Above(j, level).level == level
    decreases level - j.level
  {
    if j.level < level { AboveLevel(Parent(j), level); }
  }

  lemma {:induction false} AboveIn(t: Tabs, j: Label, level: nat)
    requires LabelsOk(t) && j in t && j.level <= level <= 2
    ensures Above(j, level) in t
    decreases level - j.level
  {
    if j.level < level { AboveIn(t, Parent(j), level); }
  }

  /** The subtree behind entry `i` is what goes through entry `i`. */
  lemma UnderChild(j: Label, at: Label, i: nat)
    requires at.level > 0 && i < 512
    ensures Under(j, Child(at, i)) <==> Below(j, at) && Branch(j, at) == i
  {
    if j.level < at.level {
      AboveStep(j, at.level);
      AboveLevel(j, at.level - 1);
      var c := Above(j, at.level - 1);
      assert c.prefix == c.prefix / 512 * 512 + c.prefix % 512;
    }
  }

  ghost function Subtree(t: Tabs, at: Label): set<nat> {
    set j | j in t && Under(j, at) :: t[j]
  }

  /** The tables behind the entries before `i`. */
  ghost function Freed(t: Tabs, at: Label, i: nat): set<nat> {
    set j | j in t && Below(j, at) && Branch(j, at) < i :: t[j]
  }

  lemma FreedStart(t: Tabs, at: Label)
    ensures Freed(t, at, 0) == {}
  {
  }

  lemma FreedAll(t: Tabs, at: Label)
    requires at in t
    ensures Subtree(t, at) == Freed(t, at, 512) + {t[at]}
  {
    forall p | p in Subtree(t, at) ensures p in Freed(t, at, 512) + {t[at]} {
      var j :| j in t && Under(j, at) && t[j] == p;
      if j != at { assert Below(j, at) && Branch(j, at) < 512; }
    }
    forall p | p in Freed(t, at, 512) + {t[at]} ensures p in Subtree(t, at) {
      if p == t[at] { assert Under(at, at); } else {
        var j :| j in t && Below(j, at) && Branch(j, at) < 512 && t[j] == p;
        assert Under(j, at);
      }
    }
  }

  lemma FreedNext(t: Tabs, at: Label, i: nat)
    requires at.level > 0 && i < 512
    ensures Freed(t, at, i + 1) == Freed(t, at, i) + Subtree(t, Child(at, i))
  {
    forall j | j in t ensures Under(j, Child(at, i)) <==> Below(j, at) && Branch(j, at) == i {
      UnderChild(j, at, i);
    }
    forall p | p in Freed(t, at, i + 1) ensures p in Freed(t, at, i) + Subtree(t, Child(at, i)) {
      var j :| j in t && Below(j, at) && Branch(j, at) < i + 1 && t[j] == p;
      if Branch(j, at) == i { assert Under(j, Child(at, i)); }
    }
    forall p | p in Freed(t, at, i) + Subtree(t, Child(at, i)) ensures p in Freed(t, at, i + 1) {
      if p in Freed(t, at, i) {
        var j :| j in t && Below(j, at) && Branch(j, at) < i && t[j] == p;
        assert Branch(j, at) < i + 1;
      } else {
        var j :| j in t && Under(j, Child(at, i)) && t[j] == p;
        assert Below(j, at) && Branch(j, at) < i + 1;
      }
    }
  }

  lemma EmptyBranch(t: Tabs, at: Label, i: nat)
    requires LabelsOk(t) && 0 < at.level <= 2 && Child(at, i) !in t
    ensures Subtree(t, Child(at, i)) == {}
  {
    forall j | j in t ensures !Under(j, Child(at, i)) {
      if j.level <= at.level - 1 { AboveIn(t, j, at.level - 1); }
    }
  }

  // ------------------------------------------------------------ freewalk

  /** A table whose entries name the tables below it, and which maps no page. */
  ghost predicate EmptyTable(mem: Mem, t: Tabs, j: Label, from: nat)
    requires j in t
  {
    && t[j] in mem && |mem[t[j]]| == ENTRIES
    && forall m: nat :: from <= m < ENTRIES ==>
         if j.level > 0 then EntryOk(mem, t, j, m) else !PageTable.Valid(mem[t[j]][m])
  }

  ghost predicate TabsOk(t: Tabs, lo: nat, hi: nat) {
    LabelsOk(t) && Injective(t) && forall j :: j in t ==> lo <= t[j] < hi
  }

  /** A subtree ready to be freed. */
  ghost predicate Ready(mem: Mem, t: Tabs, free: seq<nat>, at: Label) {
    forall j :: j in t && Under(j, at) ==> EmptyTable(mem, t, j, 0) && t[j] !in free
  }

  /** freewalk's loop: the entries before `i` are done. */
  ghost predicate WalkInv(mem0: Mem, free0: seq<nat>, mem: Mem, free: seq<nat>, t: Tabs, at: Label, i: nat)
    requires at in t
  {
    && EmptyTable(mem, t, at, i) && t[at] !in free
    && (forall j :: j in t && Below(j, at) && i <= Branch(j, at) ==> EmptyTable(mem, t, j, 0) && t[j] !in free)
    && Pages(free) == Pages(free0) + Freed(t, at, i)
    && (forall p :: p in mem0 && p !in Freed(t, at, i) && p != t[at] ==> p in mem && mem[p] == mem0[p])
  }

  lemma WalkStart(mem: Mem, free: seq<nat>, t: Tabs, at: Label)
    requires at in t && Ready(mem, t, free, at)
    ensures WalkInv(mem, free, mem, free, t, at, 0)
  {
    hide EmptyTable;
    FreedStart(t, at);
    assert Under(at, at);
    forall j | j in t && Below(j, at) ensures EmptyTable(mem, t, j, 0) && t[j] !in free {
      assert Under(j, at);
    }
  }

  /** What the loop reads in entry `i`: the table below, or nothing; never a leaf. */
  lemma WalkEntry(mem0: Mem, free0: seq<nat>, mem: Mem, free: seq<nat>, t: Tabs, at: Label, i: nat)
    requires at in t && i < 512 && WalkInv(mem0, free0, mem, free, t, at, i)
    ensures t[at] in mem && |mem[t[at]]| == 512
    ensures var e := mem[t[at]][i];
            if at.level > 0 && Child(at, i) in t then PageTable.Valid(e) && !HasRwx(e) && Ppn(e) == t[Child(at, i)]
            else !PageTable.Valid(e)
    ensures at.level > 0 && Child(at, i) in t ==> Ready(mem, t, free, Child(at, i))
  {
    if at.level > 0 {
      assert EntryOk(mem, t, at, i);
      if Child(at, i) in t {
        RwxOfPointer(t[Child(at, i)]);
        ReadyChild(mem0, free0, mem, free, t, at, i);
      }
    }
  }

  lemma RwxOfPointer(page: nat)
    ensures !HasRwx(MakePte(page, 0))
  {
  }

  lemma ReadyChild(mem0: Mem, free0: seq<nat>, mem: Mem, free: seq<nat>, t: Tabs, at: Label, i: nat)
    requires at in t && at.level > 0 && i < 512 && WalkInv(mem0, free0, mem, free, t, at, i)
    ensures Ready(mem, t, free, Child(at, i))
  {
    hide EmptyTable;
    forall j | j in t && Under(j, Child(at, i)) ensures EmptyTable(mem, t, j, 0) && t[j] !in free {
      UnderChild(j, at, i);
    }
  }

  /** An entry with nothing behind it. */
  lemma FreedSame(t: Tabs, at: Label, i: nat)
    requires LabelsOk(t) && at in t && i < 512 && (at.level == 0 || Child(at, i) !in t)
    ensures Freed(t, at, i + 1) == Freed(t, at, i)
  {
    hide Subtree;
    if at.level > 0 {
      EmptyBranch(t, at, i);
      FreedNext(t, at, i);
    }
  }

  lemma WalkSkip(mem0: Mem, free0: seq<nat>, mem: Mem, free: seq<nat>, t: Tabs, at: Label, i: nat)
    requires LabelsOk(t) && at in t && i < 512 && WalkInv(mem0, free0, mem, free, t, at, i)
    requires at.level == 0 || Child(at, i) !in t
    ensures WalkInv(mem0, free0, mem, free, t, at, i + 1)
  {
    hide EmptyTable, Subtree, Pages, Freed, LabelsOk;
    FreedSame(t, at, i);
    TableRest(mem, t, at, i);
    forall j | j in t && Below(j, at) && i + 1 <= Branch(j, at) ensures EmptyTable(mem, t, j, 0) && t[j] !in free {
    }
  }

  lemma TableRest(mem: Mem, t: Tabs, j: Label, from: nat)
    requires j in t && EmptyTable(mem, t, j, from)
    ensures EmptyTable(mem, t, j, from + 1)
  {
  }

  /** An entry whose subtree has been freed and which has then been cleared. */
  lemma WalkNext(mem0: Mem, free0: seq<nat>, mem1: Mem, free1: seq<nat>, mem2: Mem, free2: seq<nat>, t: Tabs, at: Label,
                 i: nat)
    requires LabelsOk(t) && Injective(t) && at in t && at.level > 0 && i < 512 && Child(at, i) in t
    requires WalkInv(mem0, free0, mem1, free1, t, at, i)
    requires Pages(free2) == Pages(free1) + Subtree(t, Child(at, i))
    requires forall p :: p in mem1 && p !in Subtree(t, Child(at, i)) ==> p in mem2 && mem2[p] == mem1[p]
    ensures t[at] in mem2 && |mem2[t[at]]| == 512 && t[at] !in free2
    ensures WalkInv(mem0, free0, Store(mem2, t[at], i, 0), free2, t, at, i + 1)
  {
    hide EmptyTable, Injective, LabelsOk, Subtree, Freed, Under, Branch, Pages, EntryOk;
    NotInBranch(t, at, i);
    TablePage(mem1, t, at, i);
    var mem3 := Store(mem2, t[at], i, 0);
    RestOfTable(mem1, mem2, t, at, i);
    StillUsed(free1, free2, Subtree(t, Child(at, i)), t[at]);
    FreedNext(t, at, i);
    assert Pages(free0) + Freed(t, at, i) + Subtree(t, Child(at, i)) ==
           Pages(free0) + (Freed(t, at, i) + Subtree(t, Child(at, i)));
    forall j | j in t && Below(j, at) && i + 1 <= Branch(j, at) ensures EmptyTable(mem3, t, j, 0) && t[j] !in free2 {
      StillUsed(free1, free2, Subtree(t, Child(at, i)), t[j]);
      TablePage(mem1, t, j, 0);
      OtherTable(mem1, mem2, mem3, t, at, i, j);
    }
  }

  lemma TablePage(mem: Mem, t: Tabs, j: Label, from: nat)
    requires j in t && EmptyTable(mem, t, j, from)
    ensures t[j] in mem && |mem[t[j]]| == 512
  {
  }

  lemma StillUsed(free1: seq<nat>, free2: seq<nat>, s: set<nat>, p: nat)
    requires Pages(free2) == Pages(free1) + s && p !in s && p !in free1
    ensures p !in free2
  {
    assert p !in Pages(free2);
  }

  lemma NotInBranch(t: Tabs, at: Label, i: nat)
    requires Injective(t) && at in t && at.level > 0 && i < 512
    ensures t[at] !in Subtree(t, Child(at, i))
    ensures forall j :: j in t && Below(j, at) && Branch(j, at) != i ==>
              t[j] !in Subtree(t, Child(at, i)) && t[j] != t[at]
  {
    forall j | j in t && Under(j, Child(at, i)) ensures Below(j, at) && Branch(j, at) == i {
      UnderChild(j, at, i);
    }
  }

  lemma RestOfTable(mem1: Mem, mem2: Mem, t: Tabs, at: Label, i: nat)
    requires at in t && i < 512 && EmptyTable(mem1, t, at, i) && t[at] in mem2 && mem2[t[at]] == mem1[t[at]]
    ensures EmptyTable(Store(mem2, t[at], i, 0), t, at, i + 1)
  {
    var mem3 := Store(mem2, t[at], i, 0);
    if at.level > 0 {
      forall m: nat | i + 1 <= m < ENTRIES ensures EntryOk(mem3, t, at, m) {
        assert EntryOk(mem1, t, at, m);
      }
    }
  }

  lemma OtherTable(mem1: Mem, mem2: Mem, mem3: Mem, t: Tabs, at: Label, i: nat, j: Label)
    requires j in t && at in t && EmptyTable(mem1, t, j, 0) && t[j] in mem2 && mem2[t[j]] == mem1[t[j]]
    requires t[j] != t[at] && t[j] in mem3 && mem3[t[j]] == mem2[t[j]]
    ensures EmptyTable(mem3, t, j, 0)
  {
    if j.level > 0 {
      forall m: nat | 0 <= m < ENTRIES ensures EntryOk(mem3, t, j, m) {
        assert EntryOk(mem1, t, j, m);
      }
    }
  }

  lemma WalkDone(mem0: Mem, free0: seq<nat>, mem: Mem, free: seq<nat>, t: Tabs, at: Label, mem': Mem)
    requires at in t && WalkInv(mem0, free0, mem, free, t, at, 512)
    requires forall p :: p != t[at] ==> (p in mem' <==> p in mem) && (p in mem' ==> mem'[p] == mem[p])
    ensures Pages([t[at]] + free) == Pages(free0) + Subtree(t, at)
    ensures forall p :: p in mem0 && p !in Subtree(t, at) ==> p in mem' && mem'[p] == mem0[p]
  {
    FreedAll(t, at);
    assert Pages([t[at]] + free) == Pages(free) + {t[at]};
  }

  /** freewalk: exactly the pages of the subtree go to the free list. A leaf is never met. */
  method Freewalk(vm: Vm, page: nat, ghost t: Tabs, ghost at: Label)
    requires vm.Valid() && TabsOk(t, vm.lo, vm.hi) && at in t && t[at] == page
    requires Ready(vm.k.mem, t, vm.free, at)
    modifies vm
    ensures vm.Valid()
    ensures Pages(vm.free) == Pages(old(vm.free)) + Subtree(t, at)
    ensures forall p :: p in old(vm.k.mem) && p !in Subtree(t, at) ==> p in vm.k.mem && vm.k.mem[p] == old(vm.k.mem)[p]
    decreases at.level
  {
    hide FreeOk, WalkInv, Ready, LabelsOk, Injective, Pages, Subtree, HasRwx;
    WalkStart(vm.k.mem, vm.free, t, at);
    var i := 0;
    while i < 512
      invariant i <= 512 && vm.Valid()
      invariant WalkInv(old(vm.k.mem), old(vm.free), vm.k.mem, vm.free, t, at, i)
    {
      WalkEntry(old(vm.k.mem), old(vm.free), vm.k.mem, vm.free, t, at, i);
      var pte := vm.k.mem[page][i];
      if PageTable.Valid(pte) && !HasRwx(pte) {
        ghost var mem1, free1 := vm.k.mem, vm.free;
        Freewalk(vm, Ppn(pte), t, Child(at, i));
        WalkNext(old(vm.k.mem), old(vm.free), mem1, free1, vm.k.mem, vm.free, t, at, i);
        ClearEntry(vm, page, i, t, at);
      } else {
        assert !PageTable.Valid(pte);  // the panic of kernel/vm.c:290 is out of reach
        WalkSkip(old(vm.k.mem), old(vm.free), vm.k.mem, vm.free, t, at, i);
      }
      i := i + 1;
    }
    WalkPage(old(vm.k.mem), old(vm.free), vm.k.mem, vm.free, t, at, vm.lo, vm.hi);
    ghost var mem1, free1 := vm.k.mem, vm.free;
    vm.Kfree(page);
    WalkDone(old(vm.k.mem), old(vm.free), mem1, free1, t, at, vm.k.mem);
  }

  lemma WalkPage(mem0: Mem, free0: seq<nat>, mem: Mem, free: seq<nat>, t: Tabs, at: Label, lo: nat, hi: nat)
    requires at in t && WalkInv(mem0, free0, mem, free, t, at, 512) && TabsOk(t, lo, hi)
    ensures t[at] !in free && lo <= t[at] < hi
  {
  }

  /** The store of 0 into a page-table page that is not free. */
  method ClearEntry(vm: Vm, page: nat, i: nat, ghost t: Tabs, ghost at: Label)
    requires vm.Valid() && page in vm.k.mem && |vm.k.mem[page]| == 512 && i < 512 && page !in vm.free
    modifies vm
    ensures vm.Valid() && vm.free == old(vm.free) && vm.k.mem == Store(old(vm.k.mem), page, i, 0)
  {
    FreeFrame(vm.k, Store(vm.k.mem, page, i, 0), vm.free, vm.lo, vm.hi);
    vm.k := vm.k.(mem := Store(vm.k.mem, page, i, 0));
  }

  // ------------------------------------------------------------ uvmfree

  /** A page table that maps nothing can be freed whole. */
  lemma NothingMapped(mem: Mem, t: Tabs, free: seq<nat>, lo: nat, hi: nat)
    requires SpaceOk(mem, t, free, lo, hi) && forall v: nat :: Lookup(mem, t, v).None?
    ensures TabsOk(t, lo, hi) && Ready(mem, t, free, Root) && Subtree(t, Root) == t.Values
  {
    forall j | j in t ensures EmptyTable(mem, t, j, 0) {
      if j.level == 0 {
        forall m: nat | 0 <= m < ENTRIES ensures !PageTable.Valid(mem[t[j]][m]) {
          var v := j.prefix * 512 + m;
          assert PathLabel(0, v) == j && Index(0, v) == m;
          assert Lookup(mem, t, v).None?;
        }
      } else {
        forall m: nat | 0 <= m < ENTRIES ensures EntryOk(mem, t, j, m) {
        }
      }
    }
    WholeTree(t);
  }

  lemma WholeTree(t: Tabs)
    requires LabelsOk(t)
    ensures Subtree(t, Root) == t.Values
  {
    forall j | j in t ensures Under(j, Root) {
      AboveIn(t, j, 2);
      AboveLevel(j, 2);
    }
    forall p | p in t.Values ensures p in Subtree(t, Root) {
      var j :| j in t && t[j] == p;
      assert Under(j, Root);
    }
  }
}
