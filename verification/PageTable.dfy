/** Sv39 page tables as they lie in physical memory (kernel/vm.c, kernel/riscv.h, and section
    4.4 of the RISC-V Privileged Architecture manual, version 20211203). Pages are numbered;
    a page is 512 words of 64 bits, and a page-table entry is such a word. */
module PageTable {
  import opened Base

  type Page = seq<nat>
  type Mem = map<nat, Page>

  const ENTRIES: nat := 512
  const VPNS: nat := 0x800_0000      // 2^27 virtual pages

  // ------------------------------------------------------------ entries

  predicate Valid(pte: nat) {
    pte % 2 == 1
  }

  /** PTE2PA, as a page number. */
  function Ppn(pte: nat): nat {
    pte / 1024
  }

  function Flags(pte: nat): nat {
    pte % 1024
  }

  /** PA2PTE(pa) | perm | PTE_V. */
  function MakePte(page: nat, perm: nat): (pte: nat)
    requires perm < 1024
    ensures Valid(pte) && Ppn(pte) == page && Flags(pte) == if perm % 2 == 1 then perm else perm + 1
  {
    var flags := if perm % 2 == 1 then perm else perm + 1;
    PteParts(page, flags);
    page * 1024 + flags
  }

  lemma PteParts(page: nat, flags: nat)
    requires flags < 1024
    ensures (page * 1024 + flags) / 1024 == page && (page * 1024 + flags) % 1024 == flags
    ensures (page * 1024 + flags) % 2 == flags % 2
  {
    assert page * 1024 == 2 * (page * 512);
    LowBit(page * 512, flags);
  }

  lemma LowBit(a: nat, b: nat)
    ensures (2 * a + b) % 2 == b % 2
  {
  }

  /** The R, W and X bits, which tell a leaf from a pointer to the next level. */
  predicate HasRwx(pte: nat) {
    pte / 2 % 8 != 0
  }

  // ------------------------------------------------------------ addresses

  /** A table is named by its level and by the part of the page number that leads to it. */
  datatype Label = Label(level: nat, prefix: nat)

  const Root := Label(2, 0)

  function Prefix(level: nat, vpn: nat): nat {
    if level == 0 then vpn / 512 else if level == 1 then vpn / 262144 else 0
  }

  /** PX(level, va). */
  function Index(level: nat, vpn: nat): nat {
    if level == 0 then vpn % 512 else if level == 1 then vpn / 512 % 512 else vpn / 262144 % 512
  }

  function PathLabel(level: nat, vpn: nat): Label {
    Label(level, Prefix(level, vpn))
  }

  function Child(k: Label, i: nat): Label
    requires k.level > 0
  {
    Label(k.level - 1, k.prefix * 512 + i)
  }

  lemma PathStep(level: nat, vpn: nat)
    requires 0 < level <= 2 && vpn < VPNS
    ensures Index(level, vpn) < ENTRIES
    ensures Child(PathLabel(level, vpn), Index(level, vpn)) == PathLabel(level - 1, vpn)
  {
    if level == 1 {
      var q := vpn / 512;
      assert vpn / 262144 == q / 512;
    }
  }

  /** Prefix and index determine a page number. */
  lemma SamePage(v: nat, w: nat)
    requires Prefix(0, v) == Prefix(0, w) && Index(0, v) == Index(0, w)
    ensures v == w
  {
    assert v == v / 512 * 512 + v % 512 && w == w / 512 * 512 + w % 512;
  }

  // ------------------------------------------------------------ the tree

  /** Which page holds which table. */
  type Tabs = map<Label, nat>

  ghost predicate LabelsOk(t: Tabs) {
    && Root in t
    && (forall k :: k in t ==> k.level <= 2 && (k.level == 2 ==> k == Root))
    && (forall k :: k in t && k.level < 2 ==> Label(k.level + 1, k.prefix / 512) in t)
  }

  ghost predicate Injective(t: Tabs) {
    forall j, k :: j in t && k in t && t[j] == t[k] ==> j == k
  }

  ghost predicate PagesOk(mem: Mem, t: Tabs) {
    forall k :: k in t ==> t[k] in mem && |mem[t[k]]| == ENTRIES
  }

  /** Entry `i` of an upper table: valid exactly when there is a table below, and then a bare
      pointer to it. */
  ghost predicate EntryOk(mem: Mem, t: Tabs, k: Label, i: nat)
    requires k in t && k.level > 0 && i < ENTRIES && t[k] in mem && |mem[t[k]]| == ENTRIES
  {
    var e := mem[t[k]][i];
    if Child(k, i) in t then e == MakePte(t[Child(k, i)], 0) else !Valid(e)
  }

  ghost predicate TreeOk(mem: Mem, t: Tabs) {
    && LabelsOk(t) && Injective(t) && PagesOk(mem, t)
    && forall k, i :: k in t && k.level > 0 && 0 <= i < ENTRIES ==> EntryOk(mem, t, k, i)
  }

  /** Distinct virtual pages reach distinct leaf slots: walk returns no slot for two of them. */
  lemma DistinctSlots(mem: Mem, t: Tabs, v: nat, w: nat)
    requires TreeOk(mem, t) && PathLabel(0, v) in t && PathLabel(0, w) in t
    requires t[PathLabel(0, v)] == t[PathLabel(0, w)] && Index(0, v) == Index(0, w)
    ensures v == w
  {
    assert PathLabel(0, v) == PathLabel(0, w);
    SamePage(v, w);
  }

  /** The translation of a virtual page: the entry of the leaf table, if it is valid. */
  ghost function Lookup(mem: Mem, t: Tabs, vpn: nat): Option<nat>
    requires PagesOk(mem, t)
  {
    var k := PathLabel(0, vpn);
    if k in t && Valid(mem[t[k]][Index(0, vpn)]) then Some(mem[t[k]][Index(0, vpn)]) else None
  }

  /** What the hardware does, on memory alone: three reads, each following the entry before. */
  function HwWalk(mem: Mem, root: nat, vpn: nat): Option<nat> {
    match HwStep(mem, root, Index(2, vpn))
    case None => None
    case Some(e2) =>
      match HwStep(mem, Ppn(e2), Index(1, vpn))
      case None => None
      case Some(e1) => HwStep(mem, Ppn(e1), Index(0, vpn))
  }

  function HwStep(mem: Mem, page: nat, i: nat): Option<nat> {
    if page in mem && i < |mem[page]| && Valid(mem[page][i]) then Some(mem[page][i]) else None
  }

  lemma UpperStep(mem: Mem, t: Tabs, level: nat, vpn: nat)
    requires TreeOk(mem, t) && 0 < level <= 2 && vpn < VPNS && PathLabel(level, vpn) in t
    ensures HwStep(mem, t[PathLabel(level, vpn)], Index(level, vpn)) ==
            if PathLabel(level - 1, vpn) in t then Some(MakePte(t[PathLabel(level - 1, vpn)], 0)) else None
  {
    PathStep(level, vpn);
    assert EntryOk(mem, t, PathLabel(level, vpn), Index(level, vpn));
  }

  /** A table below needs the tables above it. */
  lemma PathUp(t: Tabs, level: nat, vpn: nat)
    requires LabelsOk(t) && level < 2 && vpn < VPNS && PathLabel(level, vpn) in t
    ensures PathLabel(level + 1, vpn) in t
  {
    if level == 0 { assert vpn / 512 / 512 == vpn / 262144; }
  }

  /** Refinement: the hardware's walk of the tree in memory is the flat map. */
  lemma HwAgrees(mem: Mem, t: Tabs, vpn: nat)
    requires TreeOk(mem, t) && vpn < VPNS
    ensures HwWalk(mem, t[Root], vpn) == Lookup(mem, t, vpn)
  {
    assert PathLabel(2, vpn) == Root;
    UpperStep(mem, t, 2, vpn);
    if PathLabel(1, vpn) in t {
      UpperStep(mem, t, 1, vpn);
    } else if PathLabel(0, vpn) in t {
      PathUp(t, 0, vpn);
    }
  }

  // ------------------------------------------------------------ changes of the tree

  function Zeros(): Page {
    seq(ENTRIES, _ => 0)
  }

  /** One 64-bit store. */
  function Store(mem: Mem, page: nat, i: nat, w: nat): Mem
    requires page in mem && i < |mem[page]|
  {
    var p: Page := mem[page][i := w];
    mem[page := p]
  }

  /** Pages outside the tree do not matter to it. */
  lemma TreeFrame(mem: Mem, mem': Mem, t: Tabs)
    requires TreeOk(mem, t)
    requires forall k :: k in t ==> t[k] in mem' && mem'[t[k]] == mem[t[k]]
    ensures TreeOk(mem', t) && forall vpn :: Lookup(mem', t, vpn) == Lookup(mem, t, vpn)
  {
    forall k, i | k in t && k.level > 0 && 0 <= i < ENTRIES ensures EntryOk(mem', t, k, i) {
      assert EntryOk(mem, t, k, i);
    }
  }

  /** Writing one leaf entry changes the translation of one virtual page. */
  lemma SetLeaf(mem: Mem, t: Tabs, vpn: nat, pte: nat)
    requires TreeOk(mem, t) && PathLabel(0, vpn) in t
    ensures var p := t[PathLabel(0, vpn)];
            var mem' := Store(mem, p, Index(0, vpn), pte);
            && TreeOk(mem', t)
            && Lookup(mem', t, vpn) == (if Valid(pte) then Some(pte) else None)
            && forall w :: w != vpn ==> Lookup(mem', t, w) == Lookup(mem, t, w)
  {
    var p := t[PathLabel(0, vpn)];
    var mem' := Store(mem, p, Index(0, vpn), pte);
    forall k, i | k in t && k.level > 0 && 0 <= i < ENTRIES ensures EntryOk(mem', t, k, i) {
      assert EntryOk(mem, t, k, i);
    }
    forall w | w != vpn ensures Lookup(mem', t, w) == Lookup(mem, t, w) {
      if PathLabel(0, w) in t && t[PathLabel(0, w)] == p && Index(0, w) == Index(0, vpn) {
        SamePage(w, vpn);
      }
    }
  }

  /** walk's allocation step: hang a zeroed page below entry `i` of table `k`. */
  lemma AddTable(mem: Mem, t: Tabs, k: Label, i: nat, page: nat)
    requires TreeOk(mem, t) && k in t && 0 < k.level && i < ENTRIES && Child(k, i) !in t
    requires forall j :: j in t ==> t[j] != page
    ensures var mem' := Store(mem[page := Zeros()], t[k], i, MakePte(page, 0));
            var t' := t[Child(k, i) := page];
            && TreeOk(mem', t') && forall vpn :: Lookup(mem', t', vpn) == Lookup(mem, t, vpn)
  {
    var mem' := Store(mem[page := Zeros()], t[k], i, MakePte(page, 0));
    var t' := t[Child(k, i) := page];
    assert Child(k, i).prefix / 512 == k.prefix;
    forall j, m | j in t' && j.level > 0 && 0 <= m < ENTRIES ensures EntryOk(mem', t', j, m) {
      if j == Child(k, i) {
        NoGrandchild(t, j, m);
      } else {
        assert EntryOk(mem, t, j, m);
        if Child(j, m) == Child(k, i) { ChildInjective(j, m, k, i); }
      }
    }
    forall vpn ensures Lookup(mem', t', vpn) == Lookup(mem, t, vpn) {
    }
  }

  lemma ChildInjective(j: Label, m: nat, k: Label, i: nat)
    requires j.level > 0 && k.level > 0 && m < 512 && i < 512 && Child(j, m) == Child(k, i)
    ensures j == k && m == i
  {
  }

  /** A label without a table has no tables below it. */
  lemma NoGrandchild(t: Tabs, j: Label, m: nat)
    requires LabelsOk(t) && j !in t && 0 < j.level < 2 && m < 512
    ensures Child(j, m) !in t
  {
    assert (j.prefix * 512 + m) / 512 == j.prefix;
  }
}
