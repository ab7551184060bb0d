/** kernel/exec.c: building a new image beside the old one. What exec reads from the file is a
    parameter; every branch is followed. */
module ExecCode {
  import opened Base
  import opened PageTable
  import opened PageAlloc
  import opened VmCode
  import opened ProcMem
  import opened ProcImage
  import ExecArgs

  /** A program header, with the outcome of reading it, and the bytes that the file has from its
      offset on; fewer than the segment's mean a short read. */
  datatype Segment = Segment(readOk: bool, load: bool, vaddr: nat, memsz: nat, filesz: nat, flags: nat,
                             data: ExecArgs.Bytes)

  /** Pages between KERNBASE and PHYSTOP: 128 MB. */
  const RAMPAGES: nat := 0x8000

  /** 64-bit fields. */
  predicate SegmentOk(g: Segment) {
    g.vaddr < 0x1_0000_0000_0000_0000 && g.memsz < 0x1_0000_0000_0000_0000 && g.filesz < 0x1_0000_0000_0000_0000
  }

  /** flags2perm: PTE_X and PTE_W from the ELF flags. */
  function Flags2Perm(flags: nat): (p: nat)
    ensures p in {0, 4, 8, 12} && (p / 8 % 2 == flags % 2) && (p / 4 % 2 == flags / 2 % 2)
  {
    (if flags % 2 == 1 then 8 else 0) + if flags / 2 % 2 == 1 then 4 else 0
  }

  /** The new image so far: all its pages were free when exec began. */
  ghost predicate Building(mem0: Mem, free0: seq<nat>, mem: Mem, free: seq<nat>, sp: Space, sz: nat, root: nat) {
    && Pages(free) + Owned(sp) == Pages(free0) && Kept(mem0, mem, Pages(free0))
    && sp.n == PagesFor(sz) && Root in sp.t && sp.t[Root] == root
  }

  lemma BuildingStart(mem0: Mem, free0: seq<nat>, mem: Mem, free: seq<nat>, t: Tabs)
    requires Pages(free) + t.Values == Pages(free0) && Kept(mem0, mem, Pages(free0)) && Root in t
    ensures Building(mem0, free0, mem, free, Space(t, map[], 0), 0, t[Root])
  {
    assert PagesFor(0) == 0;
    OwnedEmpty(t);
  }

  lemma BuildingNext(mem0: Mem, free0: seq<nat>, m1: Mem, free1: seq<nat>, sp1: Space, m2: Mem, free2: seq<nat>,
                     sp2: Space, sz1: nat, sz2: nat, root: nat, perm: nat)
    requires Building(mem0, free0, m1, free1, sp1, sz1, root)
    requires Moved(m1, free1, sp1, m2, free2, sp2, perm) && sp2.n == PagesFor(sz2)
    ensures Building(mem0, free0, m2, free2, sp2, sz2, root)
  {
    hide PagesOk, Resized, PagesFor;
  }

  lemma BuildingFacts(mem0: Mem, free0: seq<nat>, mem: Mem, free: seq<nat>, sp: Space, sz: nat, root: nat)
    requires Building(mem0, free0, mem, free, sp, sz, root)
    ensures sp.n == PagesFor(sz) && Root in sp.t && sp.t[Root] == root
  {
  }

  /** A program header that exec cannot read, does not accept or cannot load. */
  predicate Refused(g: Segment) {
    || !g.readOk
    || (g.load && (g.memsz < g.filesz || g.vaddr + g.memsz >= 0x1_0000_0000_0000_0000 || g.vaddr % 4096 != 0
                  || |g.data| < g.filesz))
  }

  /** A segment that ends at address 0: as the first one it makes uvmalloc return 0, which exec
      takes for a failure. */
  predicate EndsAtZero(g: Segment) {
    g.load && g.vaddr + g.memsz == 0
  }

  /** No segment to be loaded ends above page `top`. */
  ghost predicate Below(segs: seq<Segment>, top: nat) {
    forall g :: g in segs && g.load ==> PagesFor(g.vaddr + g.memsz) <= top
  }

  /** Every page of the image can be reached from user mode. */
  ghost predicate AllUser(mem: Mem, sp: Space) {
    PagesOk(mem, sp.t) && forall v: nat :: v < sp.n ==> UserPage(mem, sp, v)
  }

  ghost predicate UserPage(mem: Mem, sp: Space, v: nat)
    requires PagesOk(mem, sp.t)
  {
    v in sp.leaf && Lookup(mem, sp.t, v).Some? && Ppn(Lookup(mem, sp.t, v).value) == sp.leaf[v] &&
      Lookup(mem, sp.t, v).value / 16 % 2 == 1
  }

  lemma GrownUser(mem: Mem, free: seq<nat>, sp: Space, mem': Mem, free': seq<nat>, sp': Space, perm: nat)
    requires Moved(mem, free, sp, mem', free', sp', perm) && AllUser(mem, sp) && perm in {18, 22, 26, 30}
    ensures AllUser(mem', sp')
  {
    hide Lookup, PagesOk, Pages, Kept, Owned;
    forall v: nat | v < sp'.n ensures UserPage(mem', sp', v) {
      if v < sp.n { assert UserPage(mem, sp, v); } else { UserBit(sp'.leaf[v], perm); }
    }
  }

  lemma UserBit(page: nat, perm: nat)
    requires perm in {18, 22, 26, 30}
    ensures MakePte(page, perm) / 16 % 2 == 1
  {
    assert MakePte(page, perm) == 32 * (32 * page) + 16 + (perm - 15);
  }

  /** walkaddr: the physical page of a user address, or none. */
  method Walkaddr(vm: Vm, root: nat, va: nat, ghost t: Tabs) returns (page: Option<nat>)
    requires vm.Valid() && vm.Space(t) && Root in t && t[Root] == root && PagesOk(vm.k.mem, t)
    modifies vm
    ensures vm.k == old(vm.k) && vm.free == old(vm.free)
    ensures page.Some? <==>
              va < MAXVA && Lookup(vm.k.mem, t, va / 4096).Some? && Lookup(vm.k.mem, t, va / 4096).value / 16 % 2 == 1
    ensures page.Some? ==> page.value == Ppn(Lookup(vm.k.mem, t, va / 4096).value)
  {
    hide TreeOk, FreeOk;
    if va >= MAXVA {
      return None;
    }
    var slot, _ := vm.Walk(root, va, false, t);
    if slot.None? {
      return None;
    }
    LeafEntry(vm.k.mem, t, va / 4096);
    var pte := vm.k.mem[slot.value.0][slot.value.1];
    if !PageTable.Valid(pte) || pte / 16 % 2 == 0 {
      return None;
    }
    page := Some(Ppn(pte));
  }

  /** What the leaf slot of a page holds. */
  lemma LeafEntry(mem: Mem, t: Tabs, vpn: nat)
    requires PagesOk(mem, t) && PathLabel(0, vpn) in t
    ensures Index(0, vpn) < ENTRIES
    ensures var pte := mem[t[PathLabel(0, vpn)]][Index(0, vpn)];
            Lookup(mem, t, vpn) == if PageTable.Valid(pte) then Some(pte) else None
  {
  }

  /** Writing a user page changes no table. */
  lemma LeafWrite(k: Kmem, free: seq<nat>, sp: Space, frame: nat, tramp: nat, v: nat, data: Page, lo: nat, hi: nat,
                  mem0: Mem, free0: seq<nat>, sz: nat, root: nat)
    requires FreeOk(k, free, lo, hi) && UserOk(k.mem, free, sp, frame, tramp, lo, hi) && v in sp.leaf &&
             |data| == ENTRIES && PagesOk(k.mem, sp.t) && Building(mem0, free0, k.mem, free, sp, sz, root)
    ensures var mem' := k.mem[sp.leaf[v] := data];
            && FreeOk(k.(mem := mem'), free, lo, hi) && UserOk(mem', free, sp, frame, tramp, lo, hi)
            && Building(mem0, free0, mem', free, sp, sz, root)
            && PagesOk(mem', sp.t) && (forall w: nat :: Lookup(mem', sp.t, w) == Lookup(k.mem, sp.t, w))
            && forall w: nat :: w in sp.leaf && w != v ==> sp.leaf[w] != sp.leaf[v]
  {
    hide FreeOk, Building, TreeOk, Lookup, MakePte;
    var mem' := k.mem[sp.leaf[v] := data];
    assert sp.leaf[v] in sp.leaf.Values;
    LeafOutside(k.mem, free, sp, frame, tramp, v, lo, hi);
    FreeFrame(k, mem', free, lo, hi);
    TreeFrame(k.mem, mem', sp.t);
    BuildingWrite(mem0, free0, k.mem, free, sp, sz, root, v, data);
  }

  lemma StillUser(mem: Mem, mem': Mem, sp: Space)
    requires AllUser(mem, sp) && PagesOk(mem', sp.t) && forall w: nat :: Lookup(mem', sp.t, w) == Lookup(mem, sp.t, w)
    ensures AllUser(mem', sp)
  {
    hide Lookup, PagesOk;
    forall w: nat | w < sp.n ensures UserPage(mem', sp, w) { assert UserPage(mem, sp, w); }
  }

  lemma LeafOutside(mem: Mem, free: seq<nat>, sp: Space, frame: nat, tramp: nat, v: nat, lo: nat, hi: nat)
    requires UserOk(mem, free, sp, frame, tramp, lo, hi) && v in sp.leaf
    ensures sp.leaf[v] in mem && sp.leaf[v] !in free && forall k :: k in sp.t ==> sp.t[k] != sp.leaf[v]
    ensures forall w: nat :: w in sp.leaf && w != v ==> sp.leaf[w] != sp.leaf[v]
  {
    hide Lookup, TreeOk;
    forall k | k in sp.t ensures sp.t[k] in sp.t.Values { }
  }

  lemma BuildingWrite(mem0: Mem, free0: seq<nat>, mem: Mem, free: seq<nat>, sp: Space, sz: nat, root: nat, v: nat,
                      data: Page)
    requires Building(mem0, free0, mem, free, sp, sz, root) && v in sp.leaf
    ensures Building(mem0, free0, mem[sp.leaf[v] := data], free, sp, sz, root)
  {
    hide PagesFor;
    assert sp.leaf[v] in sp.leaf.Values;
    assert sp.leaf[v] in Pages(free) + Owned(sp);
  }

  // ------------------------------------------------------------ what the pages hold

  ghost predicate PageIs(mem: Mem, sp: Space, v: nat, page: Page) {
    v in sp.leaf && sp.leaf[v] in mem && mem[sp.leaf[v]] == page
  }

  /** What an address space holds, by address. */
  type Image = nat -> byte

  /** The first n bytes of `data` laid over an image. */
  ghost function Over(f: Image, va: nat, data: ExecArgs.Bytes, n: nat): Image
    requires n <= |data|
  {
    (a: nat) => if va <= a < va + n then data[a - va] else f(a)
  }

  /** What the program headers make of an empty image, later ones over earlier ones. */
  ghost function Program(segs: seq<Segment>): Image {
    if segs == [] then (a: nat) => 0
    else
      var g, f := segs[|segs| - 1], Program(segs[..|segs| - 1]);
      if g.load && g.filesz <= |g.data| then Over(f, g.vaddr, g.data, g.filesz) else f
  }

  function PageAt(f: Image, v: nat): (page: ExecArgs.Bytes)
    ensures |page| == 4096 && forall j :: 0 <= j < 4096 ==> page[j] == f(v * 4096 + j)
  {
    seq(4096, j requires 0 <= j < 4096 => f(v * 4096 + j))
  }

  /** The pages of an address space hold an image, which is zero beyond them. */
  ghost predicate ImageIs(mem: Mem, sp: Space, f: Image) {
    && (forall a: nat :: a >= sp.n * 4096 ==> f(a) == 0)
    && forall v: nat :: v < sp.n ==> PageIs(mem, sp, v, ExecArgs.Words(PageAt(f, v)))
  }

  lemma ProgramNext(segs: seq<Segment>, i: nat)
    requires i < |segs|
    ensures var g, f := segs[i], Program(segs[..i]);
            Program(segs[..i + 1]) == if g.load && g.filesz <= |g.data| then Over(f, g.vaddr, g.data, g.filesz) else f
  {
    assert segs[..i + 1][..i] == segs[..i];
  }

  /** Images that agree on a page are the same there. */
  lemma SamePageAt(f: Image, g: Image, v: nat)
    requires forall a: nat :: v * 4096 <= a < v * 4096 + 4096 ==> f(a) == g(a)
    ensures PageAt(f, v) == PageAt(g, v)
  {
    forall j | 0 <= j < 4096 ensures PageAt(f, v)[j] == PageAt(g, v)[j] { }
  }

  /** One page of an image replaced. */
  ghost predicate PageSet(f: Image, g: Image, v: nat, page: ExecArgs.Bytes) {
    && |page| == 4096
    && forall a: nat :: g(a) == if v * 4096 <= a < v * 4096 + 4096 then page[a - v * 4096] else f(a)
  }

  lemma ImageWrite(mem: Mem, sp: Space, f: Image, v: nat, page: ExecArgs.Bytes, g: Image)
    requires ImageIs(mem, sp, f) && v < sp.n && v in sp.leaf && PageSet(f, g, v, page)
    requires forall w: nat :: w in sp.leaf && w != v ==> sp.leaf[w] != sp.leaf[v]
    ensures ImageIs(mem[sp.leaf[v] := ExecArgs.Words(page)], sp, g)
  {
    hide ExecArgs.Words, PageAt;
    var mem' := mem[sp.leaf[v] := ExecArgs.Words(page)];
    forall w: nat | w < sp.n ensures PageIs(mem', sp, w, ExecArgs.Words(PageAt(g, w))) {
      assert PageIs(mem, sp, w, ExecArgs.Words(PageAt(f, w)));
      if w == v {
        assert PageAt(g, v) == page;
      } else {
        SamePageAt(f, g, w);
      }
    }
  }

  lemma GrownImage(mem: Mem, free: seq<nat>, sp: Space, mem': Mem, free': seq<nat>, sp': Space, perm: nat, f: Image)
    requires Moved(mem, free, sp, mem', free', sp', perm) && ImageIs(mem, sp, f) && sp.n <= sp'.n
    ensures ImageIs(mem', sp', f)
  {
    hide Lookup, PagesOk, Pages, Kept, Owned, MakePte, Zeros, ExecArgs.Words, PageAt;
    forall v: nat | v < sp'.n ensures PageIs(mem', sp', v, ExecArgs.Words(PageAt(f, v))) {
      if v < sp.n {
        assert PageIs(mem, sp, v, ExecArgs.Words(PageAt(f, v)));
      } else {
        ZeroPage(f, v);
      }
    }
  }

  lemma ZeroPage(f: Image, v: nat)
    requires forall a: nat :: v * 4096 <= a < v * 4096 + 4096 ==> f(a) == 0
    ensures ExecArgs.Words(PageAt(f, v)) == Zeros()
  {
    var page := PageAt(f, v);
    forall i | 0 <= i < 512 ensures ExecArgs.Words(page)[i] == 0 {
      ExecArgs.ZeroValue(page[8 * i..8 * i + 8]);
    }
  }

  /** Changes outside the user pages leave an image what it is. */
  lemma ImageFrame(mem: Mem, sp: Space, mem': Mem, f: Image)
    requires ImageIs(mem, sp, f)
    requires forall v: nat :: v in sp.leaf && sp.leaf[v] in mem ==>
               sp.leaf[v] in mem' && mem'[sp.leaf[v]] == mem[sp.leaf[v]]
    ensures ImageIs(mem', sp, f)
  {
    hide ExecArgs.Words, PageAt;
    forall v: nat | v < sp.n ensures PageIs(mem', sp, v, ExecArgs.Words(PageAt(f, v))) {
      assert PageIs(mem, sp, v, ExecArgs.Words(PageAt(f, v)));
    }
  }

  /** The bytes of one page, read back from memory. */
  lemma PageBytes(mem: Mem, sp: Space, f: Image, v: nat)
    requires ImageIs(mem, sp, f) && v < sp.n
    ensures v in sp.leaf && sp.leaf[v] in mem && |mem[sp.leaf[v]]| == ENTRIES
    ensures ExecArgs.Unwords(mem[sp.leaf[v]]) == PageAt(f, v)
  {
    hide ExecArgs.Unwords, PageAt;
    assert PageIs(mem, sp, v, ExecArgs.Words(PageAt(f, v)));
    ExecArgs.UnwordsWords(PageAt(f, v));
  }

  /** What readi leaves of a page: bytes from its start on replaced. */
  function Read(page: Page, s: ExecArgs.Bytes): (r: ExecArgs.Bytes)
    requires |page| == ENTRIES && |s| <= 4096
    ensures |r| == 4096
  {
    ExecArgs.Put(ExecArgs.Unwords(page), 0, s)
  }

  lemma ReadNext(mem: Mem, sp: Space, f: Image, va: nat, data: ExecArgs.Bytes, r: nat, m: nat)
    requires m <= 4096 && 4096 * r + m <= |data| && va % 4096 == 0 && va / 4096 + r < sp.n
    requires ImageIs(mem, sp, Over(f, va, data, 4096 * r))
    ensures var v := va / 4096 + r;
            && v in sp.leaf && sp.leaf[v] in mem && |mem[sp.leaf[v]]| == ENTRIES
            && PageSet(Over(f, va, data, 4096 * r), Over(f, va, data, 4096 * r + m), v,
                       Read(mem[sp.leaf[v]], data[4096 * r..4096 * r + m]))
  {
    hide ImageIs, ExecArgs.Unwords;
    var v, g, h := va / 4096 + r, Over(f, va, data, 4096 * r), Over(f, va, data, 4096 * r + m);
    PageBytes(mem, sp, g, v);
    var s := data[4096 * r..4096 * r + m];
    var page := Read(mem[sp.leaf[v]], s);
    assert v * 4096 == va + 4096 * r;
    forall a: nat ensures h(a) == if v * 4096 <= a < v * 4096 + 4096 then page[a - v * 4096] else g(a) {
      if v * 4096 <= a < v * 4096 + 4096 {
        var j := a - v * 4096;
        assert page[j] == if j < m then s[j] else PageAt(g, v)[j];
      }
    }
  }

  /** One round of loadseg: readi fills one page, or falls short. The panic on an address that is not
      mapped is out of reach. */
  method LoadPage(vm: Vm, root: nat, va: nat, r: nat, n: nat, data: ExecArgs.Bytes, ghost sp: Space, ghost frame: nat,
                  ghost tramp: nat, ghost mem0: Mem, ghost free0: seq<nat>, ghost sz: nat, ghost f: Image)
    returns (ok: bool)
    requires vm.Valid() && UserOk(vm.k.mem, vm.free, sp, frame, tramp, vm.lo, vm.hi) && AllUser(vm.k.mem, sp)
    requires Building(mem0, free0, vm.k.mem, vm.free, sp, sz, root) && va % 4096 == 0 && va / 4096 + r < sp.n
    requires n <= 4096 && 4096 * r <= |data| && ImageIs(vm.k.mem, sp, Over(f, va, data, 4096 * r))
    modifies vm
    ensures vm.Valid() && UserOk(vm.k.mem, vm.free, sp, frame, tramp, vm.lo, vm.hi) && AllUser(vm.k.mem, sp) &&
            vm.free == old(vm.free)
    ensures Building(mem0, free0, vm.k.mem, vm.free, sp, sz, root)
    ensures ok <==> 4096 * r + n <= |data|
    ensures ok ==> ImageIs(vm.k.mem, sp, Over(f, va, data, 4096 * r + n))
  {
    hide FreeOk, UserOk, Building, PagesFor, Lookup, AllUser, ImageIs, PagesOk, Over, Read, PageSet, ExecArgs.Words;
    ghost var v := va / 4096 + r;
    UserAt(vm.k.mem, vm.free, sp, frame, tramp, v, vm.lo, vm.hi);
    PageOf(va, r);
    BuildingFacts(mem0, free0, vm.k.mem, vm.free, sp, sz, root);
    var page := Walkaddr(vm, root, va + 4096 * r, sp.t);
    assert page.Some?;  // the panic of kernel/exec.c:156 is out of reach
    ok := 4096 * r + n <= |data|;
    if ok {
      ReadNext(vm.k.mem, sp, f, va, data, r, n);
      var bytes := Read(vm.k.mem[page.value], data[4096 * r..4096 * r + n]);
      var words := ExecArgs.Words(bytes);
      LeafWrite(vm.k, vm.free, sp, frame, tramp, v, words, vm.lo, vm.hi, mem0, free0, sz, root);
      StillUser(vm.k.mem, vm.k.mem[page.value := words], sp);
      ImageWrite(vm.k.mem, sp, Over(f, va, data, 4096 * r), v, bytes, Over(f, va, data, 4096 * r + n));
      vm.k := vm.k.(mem := vm.k.mem[page.value := words]);
    }
  }

  /** loadseg: readi fills the pages of the segment, one after the other. */
  method Loadseg(vm: Vm, root: nat, va: nat, filesz: nat, data: ExecArgs.Bytes, ghost sp: Space, ghost frame: nat,
                 ghost tramp: nat, ghost mem0: Mem, ghost free0: seq<nat>, ghost sz: nat, ghost f: Image)
    returns (ok: bool)
    requires vm.Valid() && UserOk(vm.k.mem, vm.free, sp, frame, tramp, vm.lo, vm.hi) && AllUser(vm.k.mem, sp)
    requires Building(mem0, free0, vm.k.mem, vm.free, sp, sz, root) && va % 4096 == 0 && va + filesz <= sz
    requires ImageIs(vm.k.mem, sp, f)
    modifies vm
    ensures vm.Valid() && UserOk(vm.k.mem, vm.free, sp, frame, tramp, vm.lo, vm.hi) && AllUser(vm.k.mem, sp) &&
            vm.free == old(vm.free)
    ensures Building(mem0, free0, vm.k.mem, vm.free, sp, sz, root)
    ensures ok <==> |data| >= filesz
    ensures ok ==> ImageIs(vm.k.mem, sp, Over(f, va, data, filesz))
  {
    hide FreeOk, UserOk, Building, PagesFor, AllUser, ImageIs, PagesOk, Over;
    SegmentPages(mem0, free0, vm.k.mem, vm.free, sp, sz, root, va, filesz);
    OverNothing(vm.k.mem, sp, f, va, data);
    var i, r := 0, 0;
    while i < filesz
      invariant i == 4096 * r && r <= PagesFor(filesz) && Min(i, filesz) <= |data|
      invariant vm.Valid() && UserOk(vm.k.mem, vm.free, sp, frame, tramp, vm.lo, vm.hi) && AllUser(vm.k.mem, sp) &&
                vm.free == old(vm.free)
      invariant Building(mem0, free0, vm.k.mem, vm.free, sp, sz, root)
      invariant ImageIs(vm.k.mem, sp, Over(f, va, data, Min(i, filesz)))
      decreases PagesFor(filesz) - r
    {
      PagesForAbove(filesz, r);
      ok := LoadPage(vm, root, va, r, Min(filesz - i, 4096), data, sp, frame, tramp, mem0, free0, sz, f);
      if !ok {
        return;
      }
      i := i + 4096;
      r := r + 1;
    }
    ok := true;
  }

  lemma OverNothing(mem: Mem, sp: Space, f: Image, va: nat, data: ExecArgs.Bytes)
    requires ImageIs(mem, sp, f)
    ensures ImageIs(mem, sp, Over(f, va, data, 0))
  {
    hide ExecArgs.Words, PageAt;
    forall v: nat | v < sp.n ensures PageIs(mem, sp, v, ExecArgs.Words(PageAt(Over(f, va, data, 0), v))) {
      assert PageIs(mem, sp, v, ExecArgs.Words(PageAt(f, v)));
      SamePageAt(f, Over(f, va, data, 0), v);
    }
  }

  lemma UserAt(mem: Mem, free: seq<nat>, sp: Space, frame: nat, tramp: nat, v: nat, lo: nat, hi: nat)
    requires UserOk(mem, free, sp, frame, tramp, lo, hi) && AllUser(mem, sp) && v < sp.n
    ensures SpaceOk(mem, sp.t, free, lo, hi) && PagesOk(mem, sp.t) && UserPage(mem, sp, v) && v < TRAPFRAME
  {
    hide Lookup;
  }

  lemma SegmentPages(mem0: Mem, free0: seq<nat>, mem: Mem, free: seq<nat>, sp: Space, sz: nat, root: nat, va: nat,
                     filesz: nat)
    requires Building(mem0, free0, mem, free, sp, sz, root) && va % 4096 == 0 && va + filesz <= sz
    ensures va / 4096 + PagesFor(filesz) <= sp.n && va == va / 4096 * 4096
  {
  }

  /** The loop over the program headers. `sz` is at every exit, good or bad, the size of what
      is mapped. */
  method LoadSegments(vm: Vm, root: nat, segs: seq<Segment>, ghost sp0: Space, ghost frame: nat, ghost tramp: nat,
                      ghost mem0: Mem, ghost free0: seq<nat>, ghost top: nat)
    returns (ok: bool, sz: nat, ghost sp: Space)
    requires vm.Valid() && UserOk(vm.k.mem, vm.free, sp0, frame, tramp, vm.lo, vm.hi) &&
             vm.lo <= vm.hi <= vm.lo + RAMPAGES
    requires Building(mem0, free0, vm.k.mem, vm.free, sp0, 0, root) && Below(segs, top) && AllUser(vm.k.mem, sp0)
    requires ImageIs(vm.k.mem, sp0, Program([])) && forall g :: g in segs ==> SegmentOk(g)
    modifies vm
    ensures vm.Valid() && UserOk(vm.k.mem, vm.free, sp, frame, tramp, vm.lo, vm.hi)
    ensures Building(mem0, free0, vm.k.mem, vm.free, sp, sz, root)
    ensures ok ==> forall g :: g in segs ==> !Refused(g) && (g.load ==> g.vaddr + g.memsz <= sz)
    ensures !ok ==> (exists g :: g in segs && (Refused(g) || EndsAtZero(g))) || |old(vm.free)| < 3 * top
    ensures ok ==> |old(vm.free)| <= |vm.free| + 3 * top && ImageIs(vm.k.mem, sp, Program(segs))
  {
    hide FreeOk, UserOk, Building, PagesFor, Moved, AllUser, ImageIs, Over;
    ok, sz, sp := true, 0, sp0;
    assert PagesFor(0) == 0 by { PagesForAligned(0); }
    var i := 0;
    while ok && i < |segs|
      invariant i <= |segs| && vm.Valid() && UserOk(vm.k.mem, vm.free, sp, frame, tramp, vm.lo, vm.hi)
      invariant Building(mem0, free0, vm.k.mem, vm.free, sp, sz, root) && AllUser(vm.k.mem, sp)
      invariant ok ==> forall j :: 0 <= j < i ==>
                  !Refused(segs[j]) && (segs[j].load ==> segs[j].vaddr + segs[j].memsz <= sz)
      invariant !ok ==>
                  (exists j :: 0 <= j < |segs| && (Refused(segs[j]) || EndsAtZero(segs[j]))) || |old(vm.free)| < 3 * top
      invariant ok ==> PagesFor(sz) <= top && |old(vm.free)| <= |vm.free| + 3 * PagesFor(sz)
      invariant ok ==> ImageIs(vm.k.mem, sp, Program(segs[..i]))
    {
      var g := segs[i];
      ProgramNext(segs, i);
      assert g in segs;
      if !g.readOk {
        ok := false;
      } else if g.load {
        if g.memsz < g.filesz || (g.vaddr + g.memsz) % 0x1_0000_0000_0000_0000 < g.vaddr || g.vaddr % 4096 != 0 {
          ok := false;
        } else {
          BuildingFacts(mem0, free0, vm.k.mem, vm.free, sp, sz, root);
          ghost var mem1, free1, sp1, old1 := vm.k.mem, vm.free, sp, sz;
          NoWrap(g);
          if sz <= g.vaddr + g.memsz { RoundUp(sz, g.vaddr + g.memsz); }
          var sz1, sp2 := UserAlloc(vm, root, sz, (g.vaddr + g.memsz) % 0x1_0000_0000_0000_0000, Flags2Perm(g.flags),
            sp, frame, tramp);
          sp := sp2;
          BuildingNext(mem0, free0, mem1, free1, sp1, vm.k.mem, vm.free, sp, old1, if sz1 == 0 then sz else sz1, root,
            18 + Flags2Perm(g.flags));
          GrownUser(mem1, free1, sp1, vm.k.mem, vm.free, sp, 18 + Flags2Perm(g.flags));
          GrownImage(mem1, free1, sp1, vm.k.mem, vm.free, sp, 18 + Flags2Perm(g.flags), Program(segs[..i]));
          if sz1 == 0 {
            ok := false;
          } else {
            sz := sz1;
            NoCut(mem0, free0, vm.k, vm.free, sp, frame, tramp, vm.lo, vm.hi, sz, root, g);
            ok := Loadseg(vm, root, g.vaddr, g.filesz % 0x1_0000_0000, g.data, sp, frame, tramp, mem0, free0, sz,
              Program(segs[..i]));
          }
        }
      }
      i := i + 1;
    }
    if ok { assert segs[..i] == segs; }
  }

  /** loadseg takes its size as 32 bits, which is enough for all that fits the memory. */
  lemma NoCut(mem0: Mem, free0: seq<nat>, k: Kmem, free: seq<nat>, sp: Space, frame: nat, tramp: nat, lo: nat, hi: nat,
              sz: nat, root: nat, g: Segment)
    requires FreeOk(k, free, lo, hi) && UserOk(k.mem, free, sp, frame, tramp, lo, hi) && lo <= hi <= lo + RAMPAGES
    requires Building(mem0, free0, k.mem, free, sp, sz, root) && g.vaddr + g.memsz <= sz && g.filesz <= g.memsz
    ensures g.filesz % 0x1_0000_0000 == g.filesz
  {
    hide UserOk, FreeOk;
    UserFits(k, free, sp, frame, tramp, lo, hi);
    RoundedUp(sz);
  }

  /** The wrap-around test of kernel/exec.c:60 is exact. */
  lemma NoWrap(g: Segment)
    requires SegmentOk(g)
    ensures (g.vaddr + g.memsz) % 0x1_0000_0000_0000_0000 < g.vaddr <==> g.vaddr + g.memsz >= 0x1_0000_0000_0000_0000
    ensures g.vaddr + g.memsz < 0x1_0000_0000_0000_0000 ==>
              (g.vaddr + g.memsz) % 0x1_0000_0000_0000_0000 == g.vaddr + g.memsz
  {
  }

  /** The stack of a finished image: a guard page the user cannot touch below a writable page. */
  ghost predicate StackOk(mem: Mem, sp: Space)
    requires PagesOk(mem, sp.t)
  {
    && 2 <= sp.n && sp.n - 2 in sp.leaf && sp.n - 1 in sp.leaf
    && Lookup(mem, sp.t, sp.n - 2) == Some(MakePte(sp.leaf[sp.n - 2], 6))
    && Lookup(mem, sp.t, sp.n - 1) == Some(MakePte(sp.leaf[sp.n - 1], 22))
  }

  /** uvmclear of the guard page. */
  method Uvmclear(vm: Vm, root: nat, va: nat, ghost sp: Space, ghost vpn: nat, ghost frame: nat, ghost tramp: nat)
    requires vm.Valid() && UserOk(vm.k.mem, vm.free, sp, frame, tramp, vm.lo, vm.hi) && Root in sp.t &&
             sp.t[Root] == root
    requires va == vpn * 4096 && vpn < sp.n && vpn in sp.leaf &&
             Lookup(vm.k.mem, sp.t, vpn) == Some(MakePte(sp.leaf[vpn], 22))
    modifies vm
    ensures vm.Valid() && UserOk(vm.k.mem, vm.free, sp, frame, tramp, vm.lo, vm.hi) && vm.free == old(vm.free)
    ensures PagesOk(old(vm.k.mem), sp.t) && PagesOk(vm.k.mem, sp.t)
    ensures forall v: nat :: Lookup(vm.k.mem, sp.t, v) ==
                        if v == vpn then Some(MakePte(sp.leaf[vpn], 6)) else Lookup(old(vm.k.mem), sp.t, v)
    ensures Kept(old(vm.k.mem), vm.k.mem, sp.t.Values)
  {
    UserRoot(vm.k.mem, vm.free, sp, frame, tramp, vm.lo, vm.hi);
    hide TreeOk, FreeOk, Lookup;
    assert va / 4096 == vpn;
    var slot, _ := vm.Walk(root, va, false, sp.t);
    LookupSlot(vm.k.mem, sp.t, vpn);
    var pte := vm.k.mem[slot.value.0][slot.value.1];
    ghost var mem0 := vm.k.mem;
    var cleared := if pte / 16 % 2 == 1 then pte - 16 else pte;
    ClearUser(sp.leaf[vpn]);
    vm.SetPte(slot.value, cleared, va / 4096, sp.t);
    ClearedLeaf(mem0, vm.free, sp, frame, tramp, vm.k.mem, vpn, vm.lo, vm.hi);
  }

  lemma ClearUser(page: nat)
    ensures var pte := MakePte(page, 22);
            pte / 16 % 2 == 1 && pte - 16 == MakePte(page, 6) && PageTable.Valid(pte - 16)
  {
    assert MakePte(page, 22) == page * 1024 + 23;
  }

  lemma ClearedLeaf(mem: Mem, free: seq<nat>, sp: Space, frame: nat, tramp: nat, mem': Mem, vpn: nat, lo: nat, hi: nat)
    requires UserOk(mem, free, sp, frame, tramp, lo, hi) && SpaceOk(mem', sp.t, free, lo, hi) && PagesOk(mem', sp.t) &&
             vpn in sp.leaf
    requires forall v: nat :: Lookup(mem', sp.t, v) == if v == vpn then Some(MakePte(sp.leaf[vpn], 6))
             else Lookup(mem, sp.t, v)
    requires Kept(mem, mem', sp.t.Values)
    ensures UserOk(mem', free, sp, frame, tramp, lo, hi)
  {
    hide TreeOk, Lookup;
  }

  /** The user stack: two pages on top of the loaded program, the lower one a guard. */
  method MakeStack(vm: Vm, root: nat, sz: nat, ghost sp0: Space, ghost frame: nat, ghost tramp: nat, ghost mem0: Mem,
                   ghost free0: seq<nat>, ghost f: Image) returns (ok: bool, sz': nat, ghost sp: Space)
    requires vm.Valid() && UserOk(vm.k.mem, vm.free, sp0, frame, tramp, vm.lo, vm.hi) &&
             vm.lo <= vm.hi <= vm.lo + RAMPAGES
    requires Building(mem0, free0, vm.k.mem, vm.free, sp0, sz, root) && ImageIs(vm.k.mem, sp0, f)
    modifies vm
    ensures vm.Valid() && UserOk(vm.k.mem, vm.free, sp, frame, tramp, vm.lo, vm.hi)
    ensures Building(mem0, free0, vm.k.mem, vm.free, sp, sz', root)
    ensures ok ==> PagesOk(vm.k.mem, sp.t) && StackOk(vm.k.mem, sp) && sz' == PagesFor(sz) * 4096 + 8192 >= sz
    ensures ok ==> ImageIs(vm.k.mem, sp, f) && sz' == sp.n * 4096
    ensures !ok ==> |old(vm.free)| < 6
  {
    hide FreeOk, UserOk, Building, PagesFor, Moved, Lookup, PagesOk, StackOk, MakePte, ImageIs, Kept;
    var base := PagesFor(sz) * 4096;
    RoundedUp(sz);
    PagesForAligned(PagesFor(sz));
    PagesForAligned(PagesFor(sz) + 2);
    BuildingFacts(mem0, free0, vm.k.mem, vm.free, sp0, sz, root);
    ghost var mem1, free1 := vm.k.mem, vm.free;
    sz', sp := UserAlloc(vm, root, base, base + 8192, 4, sp0, frame, tramp);
    ok := sz' != 0;
    if !ok { sz' := base; }
    BuildingNext(mem0, free0, mem1, free1, sp0, vm.k.mem, vm.free, sp, sz, sz', root, 22);
    if ok {
      ghost var mem2, free2 := vm.k.mem, vm.free;
      BuildingFacts(mem0, free0, vm.k.mem, vm.free, sp, sz', root);
      StackPages(mem1, free1, sp0, vm.k.mem, vm.free, sp);
      GrownImage(mem1, free1, sp0, vm.k.mem, vm.free, sp, 22, f);
      Uvmclear(vm, root, sz' - 8192, sp, sp.n - 2, frame, tramp);
      StackDone(mem0, free0, mem2, free2, sp, sz', root, vm.k.mem);
      ClearedImage(mem2, free2, sp, frame, tramp, vm.k.mem, vm.lo, vm.hi, f);
    }
  }

  lemma ClearedImage(mem: Mem, free: seq<nat>, sp: Space, frame: nat, tramp: nat, mem': Mem, lo: nat, hi: nat,
                     f: Image)
    requires UserOk(mem, free, sp, frame, tramp, lo, hi) && Kept(mem, mem', sp.t.Values) && ImageIs(mem, sp, f)
    ensures ImageIs(mem', sp, f)
  {
    hide UserOk, ImageIs;
    forall v: nat | v in sp.leaf && sp.leaf[v] in mem
      ensures sp.leaf[v] in mem' && mem'[sp.leaf[v]] == mem[sp.leaf[v]]
    {
      LeafOutside(mem, free, sp, frame, tramp, v, lo, hi);
    }
    ImageFrame(mem, sp, mem', f);
  }

  /** The checks of copyout for one page: mapped, for the user, and writable. */
  method CopyTarget(vm: Vm, root: nat, va: nat, ghost t: Tabs) returns (page: Option<nat>)
    requires vm.Valid() && vm.Space(t) && Root in t && t[Root] == root && PagesOk(vm.k.mem, t)
    modifies vm
    ensures vm.k == old(vm.k) && vm.free == old(vm.free)
    ensures page.Some? <==>
              && va < MAXVA && Lookup(vm.k.mem, t, va / 4096).Some?
              && Lookup(vm.k.mem, t, va / 4096).value / 16 % 2 == 1 && Lookup(vm.k.mem, t, va / 4096).value / 4 % 2 == 1
    ensures page.Some? ==> page.value == Ppn(Lookup(vm.k.mem, t, va / 4096).value)
  {
    hide TreeOk, FreeOk;
    if va >= MAXVA {
      return None;
    }
    var slot, _ := vm.Walk(root, va, false, t);
    if slot.None? {
      return None;
    }
    LeafEntry(vm.k.mem, t, va / 4096);
    var pte := vm.k.mem[slot.value.0][slot.value.1];
    if !PageTable.Valid(pte) || pte / 16 % 2 == 0 || pte / 4 % 2 == 0 {
      return None;
    }
    page := Some(Ppn(pte));
  }

  /** The arguments on the stack. The copyouts never fail: the stack page is there to be written. */
  method PushStack(vm: Vm, root: nat, sz: nat, args: seq<ExecArgs.Bytes>, ghost sp: Space, ghost frame: nat,
                   ghost tramp: nat, ghost mem0: Mem, ghost free0: seq<nat>, ghost f: Image)
    returns (r: ExecArgs.PushResult)
    requires vm.Valid() && UserOk(vm.k.mem, vm.free, sp, frame, tramp, vm.lo, vm.hi)
    requires Building(mem0, free0, vm.k.mem, vm.free, sp, sz, root) && ImageIs(vm.k.mem, sp, f) && sz == sp.n * 4096
    requires PagesOk(vm.k.mem, sp.t) && StackOk(vm.k.mem, sp)
    requires forall i :: 0 <= i < |args| ==> ExecArgs.IsArg(args[i])
    modifies vm
    ensures vm.Valid() && UserOk(vm.k.mem, vm.free, sp, frame, tramp, vm.lo, vm.hi) && vm.free == old(vm.free)
    ensures Building(mem0, free0, vm.k.mem, vm.free, sp, sz, root)
    ensures PagesOk(vm.k.mem, sp.t) && StackOk(vm.k.mem, sp)
    ensures r.Pushed? <==> |args| < ExecArgs.MAXARG && ExecArgs.NeedAll(args) <= 4096
    ensures r.Overruns? <==> |args| == ExecArgs.MAXARG && ExecArgs.Need(args) <= 4096
    ensures r.Pushed? ==> |r.page| == 4096 && ExecArgs.ArgvIs(r.page, sz - 4096, r.sp, args)
    ensures r.Pushed? ==> ImageIs(vm.k.mem, sp, Over(f, sz - 4096, r.page, 4096))
  {
    hide FreeOk, UserOk, Building, Lookup, PagesOk, ImageIs, ExecArgs.ArgvIs, ExecArgs.Need, ExecArgs.NeedAll,
         ExecArgs.Words, ExecArgs.Unwords;
    StackAt(vm.k.mem, vm.free, sp, frame, tramp, vm.lo, vm.hi);
    BuildingFacts(mem0, free0, vm.k.mem, vm.free, sp, sz, root);
    PageBytes(vm.k.mem, sp, f, sp.n - 1);
    var page := CopyTarget(vm, root, sz - 4096, sp.t);
    assert page == Some(sp.leaf[sp.n - 1]);
    r := ExecArgs.PushArgs(ExecArgs.Unwords(vm.k.mem[page.value]), sz - 4096, args);
    if r.Pushed? {
      var words := ExecArgs.Words(r.page);
      LeafWrite(vm.k, vm.free, sp, frame, tramp, sp.n - 1, words, vm.lo, vm.hi, mem0, free0, sz, root);
      ImageWrite(vm.k.mem, sp, f, sp.n - 1, r.page, Over(f, sz - 4096, r.page, 4096));
      vm.k := vm.k.(mem := vm.k.mem[page.value := words]);
    }
  }

  lemma StackAt(mem: Mem, free: seq<nat>, sp: Space, frame: nat, tramp: nat, lo: nat, hi: nat)
    requires UserOk(mem, free, sp, frame, tramp, lo, hi) && PagesOk(mem, sp.t) && StackOk(mem, sp)
    ensures SpaceOk(mem, sp.t, free, lo, hi) && 4096 <= sp.n * 4096 - 4096 < MAXVA == 0x40_0000_0000
    ensures (sp.n * 4096 - 4096) % 4096 == 0 && (sp.n * 4096 - 4096) / 4096 == sp.n - 1
    ensures var pte := Lookup(mem, sp.t, sp.n - 1);
            pte.Some? && pte.value / 16 % 2 == 1 && pte.value / 4 % 2 == 1 && Ppn(pte.value) == sp.leaf[sp.n - 1]
  {
    hide Lookup, MakePte, SpaceOk, TreeOk;
    UserBit(sp.leaf[sp.n - 1], 22);
    WriteBit(sp.leaf[sp.n - 1]);
  }

  lemma WriteBit(page: nat)
    ensures MakePte(page, 22) / 4 % 2 == 1
  {
    var q := 128 * page + 2;
    assert MakePte(page, 22) == 4 * (2 * q + 1) + 3;
    assert (4 * (2 * q + 1) + 3) / 4 == 2 * q + 1;
  }

  lemma RoundedUp(sz: nat)
    ensures PagesFor(sz) * 4096 >= sz
  {
  }

  lemma StackPages(m1: Mem, free1: seq<nat>, sp0: Space, m2: Mem, free2: seq<nat>, sp: Space)
    requires Moved(m1, free1, sp0, m2, free2, sp, 22) && sp.n == sp0.n + 2
    ensures PagesOk(m2, sp.t) && sp.n - 2 in sp.leaf && sp.n - 1 in sp.leaf
    ensures Lookup(m2, sp.t, sp.n - 2) == Some(MakePte(sp.leaf[sp.n - 2], 22))
    ensures Lookup(m2, sp.t, sp.n - 1) == Some(MakePte(sp.leaf[sp.n - 1], 22))
  {
    hide Lookup, MakePte, PagesOk;
  }

  lemma StackDone(mem0: Mem, free0: seq<nat>, m1: Mem, free1: seq<nat>, sp: Space, sz: nat, root: nat, m2: Mem)
    requires Building(mem0, free0, m1, free1, sp, sz, root) && PagesOk(m1, sp.t) && PagesOk(m2, sp.t) && 2 <= sp.n
    requires sp.n - 2 in sp.leaf && sp.n - 1 in sp.leaf &&
             Lookup(m1, sp.t, sp.n - 1) == Some(MakePte(sp.leaf[sp.n - 1], 22))
    requires forall v: nat :: Lookup(m2, sp.t, v) == if v == sp.n - 2 then Some(MakePte(sp.leaf[sp.n - 2], 6))
             else Lookup(m1, sp.t, v)
    requires Kept(m1, m2, sp.t.Values)
    ensures StackOk(m2, sp) && Building(mem0, free0, m2, free1, sp, sz, root)
  {
    hide Lookup, MakePte, PagesOk, PagesFor;
  }

  /** How exec ends. Overruns: MAXARG arguments have made it write past `ustack`. */
  datatype ExecEnd = Replaced | Failed | Overruns

  /** exec: either the process has the new image, with the program and its arguments in it, and the
      old one is free, or the old image is untouched and every page taken is free again. */
  method Exec(vm: Vm, oldRoot: nat, oldsz: nat, headerOk: bool, segs: seq<Segment>, args: seq<ExecArgs.Bytes>,
              frame: nat, tramp: nat, ghost sp: Space, ghost top: nat)
    returns (end: ExecEnd, root: nat, sz: nat, usp: nat, ghost sp': Space, ghost stack: ExecArgs.Bytes)
    requires vm.Valid() && UserOk(vm.k.mem, vm.free, sp, frame, tramp, vm.lo, vm.hi) &&
             vm.lo <= vm.hi <= vm.lo + RAMPAGES
    requires Root in sp.t && sp.t[Root] == oldRoot && sp.n == PagesFor(oldsz) && Below(segs, top) &&
             forall g :: g in segs ==> SegmentOk(g)
    requires forall i :: 0 <= i < |args| ==> ExecArgs.IsArg(args[i])
    modifies vm
    ensures end == Overruns ==> |args| == ExecArgs.MAXARG && ExecArgs.Need(args) <= 4096
    ensures end != Overruns ==>
              && vm.Valid() && UserOk(vm.k.mem, vm.free, sp', frame, tramp, vm.lo, vm.hi)
              && Root in sp'.t && sp'.t[Root] == root && sp'.n == PagesFor(sz)
              && Kept(old(vm.k.mem), vm.k.mem, Pages(old(vm.free)) + Owned(sp))
    ensures end == Failed ==>
              && sp' == sp && sz == oldsz && root == oldRoot && SameSource(old(vm.k.mem), sp.t, sp.leaf, vm.k.mem)
              && Pages(vm.free) == Pages(old(vm.free)) && vm.k.nfree == old(vm.k.nfree)
    ensures end == Failed ==>
              || !headerOk || |args| > ExecArgs.MAXARG || ExecArgs.NeedAll(args) > 4096
              || (exists g :: g in segs && (Refused(g) || EndsAtZero(g))) || |old(vm.free)| < 11 + 3 * top
    ensures end == Replaced ==> Pages(vm.free) + Owned(sp') == Pages(old(vm.free)) + Owned(sp)
    ensures end == Replaced ==> PagesOk(vm.k.mem, sp'.t) && StackOk(vm.k.mem, sp') && 8192 <= sz == sp'.n * 4096
    ensures end == Replaced ==>
              |stack| == 4096 && ImageIs(vm.k.mem, sp', Over(Program(segs), sz - 4096, stack, 4096))
    ensures end == Replaced ==> |args| < ExecArgs.MAXARG && ExecArgs.ArgvIs(stack, sz - 4096, usp, args)
    ensures end == Replaced ==>
              headerOk && forall g :: g in segs ==> !Refused(g) && (g.load ==> g.vaddr + g.memsz <= sz)
  {
    hide FreeOk, UserOk, Building, PagesFor, Moved, Lookup, PagesOk, StackOk, SameSource, Kept, Pages, Owned, ImageIs,
         Program, Over, ExecArgs.ArgvIs, ExecArgs.Need, ExecArgs.Words;
    ghost var mem0, free0 := vm.k.mem, vm.free;
    end, root, sz, usp, sp', stack := Failed, oldRoot, oldsz, 0, sp, [];
    Untaken(mem0, vm.k, free0, sp, frame, tramp, vm.lo, vm.hi);
    if !headerOk {
      return;
    }
    var pt, t := ProcPagetable(vm, frame, tramp);
    if pt.None? {
      GiveBack(mem0, free0, old(vm.k), sp, frame, tramp, vm.k, vm.free, vm.lo, vm.hi);
      return;
    }
    UserRoot(vm.k.mem, vm.free, Space(t, map[], 0), frame, tramp, vm.lo, vm.hi);
    BuildingStart(mem0, free0, vm.k.mem, vm.free, t);
    EmptyImage(vm.k.mem, t);
    var good, newsz, img := LoadSegments(vm, pt.value, segs, Space(t, map[], 0), frame, tramp, mem0, free0, top);
    if good {
      good, newsz, img := MakeStack(vm, pt.value, newsz, img, frame, tramp, mem0, free0, Program(segs));
    }
    var pushed := ExecArgs.Refused;
    if good {
      pushed := PushStack(vm, pt.value, newsz, args, img, frame, tramp, mem0, free0, Program(segs));
    }
    if pushed.Overruns? {
      end := Overruns;
      return;
    }
    if pushed.Pushed? {
      ghost var mem1, free1 := vm.k.mem, vm.free;
      OldKept(mem0, free0, sp, mem1, free1, img, newsz, pt.value, frame, tramp, vm.lo, vm.hi);
      ProcFreePagetable(vm, oldRoot, oldsz, sp, frame, tramp);
      Committed(mem0, free0, sp, mem1, free1, img, newsz, pt.value, vm.k.mem, vm.free, frame, tramp, vm.lo, vm.hi);
      SourceImage(mem1, img, vm.k.mem, Over(Program(segs), newsz - 4096, pushed.page, 4096));
      return Replaced, pt.value, newsz, pushed.sp, img, pushed.page;
    }
    ghost var mem1, free1 := vm.k.mem, vm.free;
    BuildingFacts(mem0, free0, vm.k.mem, vm.free, img, newsz, pt.value);
    ProcFreePagetable(vm, pt.value, newsz, img, frame, tramp);
    BuildingGone(mem0, free0, mem1, free1, img, newsz, pt.value, vm.k.mem, vm.free);
    GiveBack(mem0, free0, old(vm.k), sp, frame, tramp, vm.k, vm.free, vm.lo, vm.hi);
  }

  /** sys_exec from the argument loop on: exec, as the system call reaches it, never overruns. */
  method SysExec(vm: Vm, oldRoot: nat, oldsz: nat, headerOk: bool, segs: seq<Segment>, user: seq<ExecArgs.Fetched>,
                 frame: nat, tramp: nat, ghost sp: Space, ghost top: nat)
    returns (ok: bool, root: nat, sz: nat, usp: nat, ghost sp': Space, ghost stack: ExecArgs.Bytes)
    requires vm.Valid() && UserOk(vm.k.mem, vm.free, sp, frame, tramp, vm.lo, vm.hi) &&
             vm.lo <= vm.hi <= vm.lo + RAMPAGES
    requires Root in sp.t && sp.t[Root] == oldRoot && sp.n == PagesFor(oldsz) && Below(segs, top) &&
             forall g :: g in segs ==> SegmentOk(g)
    requires forall i :: 0 <= i < |user| && user[i].Arg? ==> ExecArgs.IsArg(user[i].s)
    modifies vm
    ensures vm.Valid() && UserOk(vm.k.mem, vm.free, sp', frame, tramp, vm.lo, vm.hi)
    ensures Root in sp'.t && sp'.t[Root] == root && sp'.n == PagesFor(sz)
    ensures !ok ==> sp' == sp && sz == oldsz && root == oldRoot && Pages(vm.free) == Pages(old(vm.free))
    ensures ok ==> exists args: seq<ExecArgs.Bytes> ::
              && |args| < ExecArgs.MAXARG && ExecArgs.EndsAt(user, |args|)
              && (forall i :: 0 <= i < |args| ==> user[i] == ExecArgs.Arg(args[i]))
              && sz >= 8192 && ExecArgs.ArgvIs(stack, sz - 4096, usp, args)
  {
    hide FreeOk, UserOk, PagesFor, Lookup, PagesOk, StackOk, SameSource, Kept, Pages, Owned, ImageIs, Program, Over,
         ExecArgs.ArgvIs, ExecArgs.Need, ExecArgs.NeedAll;
    ok, root, sz, usp, sp', stack := false, oldRoot, oldsz, 0, sp, [];
    var args := ExecArgs.FetchArgs(user);
    if args.None? {
      return;
    }
    var end;
    end, root, sz, usp, sp', stack := Exec(vm, oldRoot, oldsz, headerOk, segs, args.value, frame, tramp, sp, top);
    ok := end == Replaced;
  }

  lemma EmptyImage(mem: Mem, t: Tabs)
    requires PagesOk(mem, t)
    ensures AllUser(mem, Space(t, map[], 0)) && ImageIs(mem, Space(t, map[], 0), Program([]))
  {
  }

  lemma SourceImage(mem: Mem, sp: Space, mem': Mem, f: Image)
    requires ImageIs(mem, sp, f) && SameSource(mem, sp.t, sp.leaf, mem')
    ensures ImageIs(mem', sp, f)
  {
    hide ImageIs;
    forall v: nat | v in sp.leaf && sp.leaf[v] in mem
      ensures sp.leaf[v] in mem' && mem'[sp.leaf[v]] == mem[sp.leaf[v]]
    {
      assert sp.leaf[v] in sp.leaf.Values;
    }
    ImageFrame(mem, sp, mem', f);
  }

  lemma Untaken(mem0: Mem, k: Kmem, free0: seq<nat>, sp: Space, frame: nat, tramp: nat, lo: nat, hi: nat)
    requires UserOk(mem0, free0, sp, frame, tramp, lo, hi)
    ensures SameSource(mem0, sp.t, sp.leaf, mem0) && forall s :: Kept(mem0, mem0, s)
  {
    hide UserOk;
  }

  lemma GiveBack(mem0: Mem, free0: seq<nat>, k0: Kmem, sp: Space, frame: nat, tramp: nat, k: Kmem, free: seq<nat>,
                 lo: nat, hi: nat)
    requires UserOk(mem0, free0, sp, frame, tramp, lo, hi) && FreeOk(k0, free0, lo, hi) && FreeOk(k, free, lo, hi)
    requires Pages(free) == Pages(free0) && Kept(mem0, k.mem, Pages(free0))
    ensures UserOk(k.mem, free, sp, frame, tramp, lo, hi) && SameSource(mem0, sp.t, sp.leaf, k.mem) &&
            k.nfree == k0.nfree
    ensures Kept(mem0, k.mem, Pages(free0) + Owned(sp))
  {
    hide UserOk, SameSource, FreeOk;
    Restored(mem0, free0, k0, sp, frame, tramp, k, free, lo, hi);
  }

  lemma BuildingGone(mem0: Mem, free0: seq<nat>, m1: Mem, free1: seq<nat>, img: Space, sz: nat, root: nat, m2: Mem,
                     free2: seq<nat>)
    requires Building(mem0, free0, m1, free1, img, sz, root)
    requires Pages(free2) == Pages(free1) + Owned(img) && Kept(m1, m2, Pages(free1) + Owned(img))
    ensures Pages(free2) == Pages(free0) && Kept(mem0, m2, Pages(free0))
  {
    hide PagesFor;
  }

  /** The old image at the moment of the commit. */
  lemma OldKept(mem0: Mem, free0: seq<nat>, sp: Space, m1: Mem, free1: seq<nat>, img: Space, sz: nat, root: nat,
                frame: nat, tramp: nat, lo: nat, hi: nat)
    requires UserOk(mem0, free0, sp, frame, tramp, lo, hi) && Building(mem0, free0, m1, free1, img, sz, root)
    ensures UserOk(m1, free1, sp, frame, tramp, lo, hi) && Owned(img) !! Owned(sp) && Owned(img) <= Pages(free0)
  {
    hide UserOk, PagesFor, Pages, Owned;
    UserApart(mem0, free0, sp, frame, tramp, lo, hi);
    assert Pages(free1) !! Owned(sp);
    UserFrame(mem0, free0, sp, frame, tramp, m1, free1, Pages(free0), lo, hi);
  }

  lemma Committed(mem0: Mem, free0: seq<nat>, sp: Space, m1: Mem, free1: seq<nat>, img: Space, sz: nat, root: nat,
                  m2: Mem, free2: seq<nat>, frame: nat, tramp: nat, lo: nat, hi: nat)
    requires Building(mem0, free0, m1, free1, img, sz, root) && UserOk(m1, free1, img, frame, tramp, lo, hi)
    requires Owned(img) !! Owned(sp) && PagesOk(m1, img.t) && StackOk(m1, img)
    requires Pages(free2) == Pages(free1) + Owned(sp) && Kept(m1, m2, Pages(free1) + Owned(sp))
    ensures UserOk(m2, free2, img, frame, tramp, lo, hi) && Root in img.t && img.t[Root] == root &&
            img.n == PagesFor(sz)
    ensures Pages(free2) + Owned(img) == Pages(free0) + Owned(sp) && Kept(mem0, m2, Pages(free0) + Owned(sp))
    ensures PagesOk(m2, img.t) && StackOk(m2, img) && SameSource(m1, img.t, img.leaf, m2)
  {
    hide UserOk, PagesFor, Pages, Owned, Lookup, SameSource, StackOk;
    UserApart(m1, free1, img, frame, tramp, lo, hi);
    UserFrame(m1, free1, img, frame, tramp, m2, free2, Pages(free1) + Owned(sp), lo, hi);
    assert Pages(free1) + Owned(sp) + Owned(img) == Pages(free1) + Owned(img) + Owned(sp);
    UserRoot(m2, free2, img, frame, tramp, lo, hi);
    StackKept(m1, free1, img, frame, tramp, m2, lo, hi);
  }

  lemma StackKept(m1: Mem, free1: seq<nat>, img: Space, frame: nat, tramp: nat, m2: Mem, lo: nat, hi: nat)
    requires UserOk(m1, free1, img, frame, tramp, lo, hi) && PagesOk(m1, img.t) && StackOk(m1, img) &&
             SameSource(m1, img.t, img.leaf, m2)
    requires PagesOk(m2, img.t)
    ensures StackOk(m2, img)
  {
    hide Lookup, MakePte;
    forall k | k in img.t ensures img.t[k] in m2 && m2[img.t[k]] == m1[img.t[k]] {
      assert img.t[k] in img.t.Values;
    }
    TreeFrame(m1, m2, img.t);
  }
}
