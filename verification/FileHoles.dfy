/** Files with holes (kernel/fs.c, kernel/file.c): a read that panics and a write that logs more blocks
    than one operation may, each as a call of the code on a file system that satisfies its
    invariant. */
module FileHoles {
  import opened Base
  import opened Blocks
  import opened Bitmap
  import opened Files
  import opened FsCode
  import opened FileTrunc
  import opened FileData

  // ------------------------------------------------------------ a packed file system

  /** Data blocks are dealt out in order: 269 in a row to file 1, then to file 2, and so on. */
  function Holder(sb: Super, b: nat): Slot
    requires sb.datastart <= b
  {
    var i, j := 1 + (b - sb.datastart) / 269, (b - sb.datastart) % 269;
    if j < 12 then Direct(i, j) else if j == 12 then Indirect(i) else Entry(i, j - 13)
  }

  function Place(s: Slot): nat {
    match s
    case Direct(_, i) => i
    case Indirect(_) => 12
    case Entry(_, j) => 13 + j
  }

  function BlockFor(sb: Super, s: Slot): nat
    requires s.inum >= 1
  {
    sb.datastart + 269 * (s.inum - 1) + Place(s)
  }

  lemma HolderBack(sb: Super, n: nat, s: Slot)
    requires SlotOk(n, s) && s.inum >= 1
    ensures Holder(sb, BlockFor(sb, s)) == s
  {
    var k := 269 * (s.inum - 1) + Place(s);
    assert k / 269 == s.inum - 1 && k % 269 == Place(s);
  }

  lemma BlockBack(sb: Super, b: nat)
    requires sb.datastart <= b
    ensures Holder(sb, b).inum == 1 + (b - sb.datastart) / 269 && BlockFor(sb, Holder(sb, b)) == b
    ensures SlotOk(2 + (b - sb.datastart) / 269, Holder(sb, b))
  {
    var k := b - sb.datastart;
    assert k == 269 * (k / 269) + k % 269;
  }

  /** The blocks in `free` are dealt to nobody. */
  function Dealt(sb: Super, free: set<nat>, b: nat): word
    requires Sane(sb)
  {
    if b < sb.size && b !in free then b else 0
  }

  /** The first n entries of indirect block c. */
  function Table(sb: Super, free: set<nat>, c: nat, n: nat): Block
    requires Sane(sb) && n <= 256
  {
    if n == 0 then ZeroBlock() else SetWord(Table(sb, free, c, n - 1), n - 1, Dealt(sb, free, c + n))
  }

  lemma {:induction false} TableWord(sb: Super, free: set<nat>, c: nat, n: nat, j: nat)
    requires Sane(sb) && n <= 256 && j < 256
    ensures Word(Table(sb, free, c, n), j) == if j < n then Dealt(sb, free, c + 1 + j) else 0
    decreases n
  {
    hide Word, SetWord, Sane;
    if n == 0 {
      WordOfZero(j);
    } else {
      TableWord(sb, free, c, n - 1, j);
      WordSetWord(Table(sb, free, c, n - 1), n - 1, Dealt(sb, free, c + n), j);
    }
  }

  /** The disk without its bitmap. */
  function Bare(sb: Super, free: set<nat>): (d: Disk)
    requires Sane(sb)
    ensures |d| == sb.size
  {
    seq(sb.size, c requires 0 <= c < sb.size =>
      if sb.datastart <= c && Holder(sb, c).Indirect? && c !in free then Table(sb, free, c, 256) else ZeroBlock())
  }

  /** The bitmap with the first n blocks marked, except those in `free`. */
  function Marks(sb: Super, d: Disk, n: nat, free: set<nat>): (r: Disk)
    requires Sane(sb) && |d| == sb.size && n <= sb.size
    ensures |r| == |d|
  {
    if n == 0 then d
    else
      var r := Marks(sb, d, n - 1, free);
      BblockInRange(sb, n - 1);
      var m := Bblock(sb, n - 1);
      if n - 1 in free then r else r[m := Marked(r[m], (n - 1) % 8192)]
  }

  lemma {:induction false} MarksOk(sb: Super, d: Disk, n: nat, free: set<nat>)
    requires Sane(sb) && |d| == sb.size && n <= sb.size && forall c: nat :: c < sb.size ==> !Used(sb, d, c)
    ensures forall c: nat :: c < sb.size ==> (Used(sb, Marks(sb, d, n, free), c) <==> c < n && c !in free)
    ensures forall c: nat :: c < sb.size && (c < sb.bmapstart || sb.datastart <= c) ==> Marks(sb, d, n, free)[c] == d[c]
    decreases n
  {
    hide Used, Marked, Sane;
    if n > 0 {
      MarksOk(sb, d, n - 1, free);
      BblockInRange(sb, n - 1);
      var r, m := Marks(sb, d, n - 1, free), Bblock(sb, n - 1);
      var r' := Marks(sb, d, n, free);
      MarkOne(sb, r, n - 1, true);
      assert r' == if n - 1 in free then r else r[m := Marked(r[m], (n - 1) % 8192)];
      forall c: nat | c < sb.size ensures Used(sb, r', c) <==> c < n && c !in free {
        assert Used(sb, r, c) <==> c < n - 1 && c !in free;
        if n - 1 !in free {
          assert Used(sb, r', c) <==> if c == n - 1 then true else Used(sb, r, c);
        }
      }
    }
  }

  function Addr(sb: Super, free: set<nat>, i: nat, j: nat): word
    requires Sane(sb)
  {
    if i == 0 then 0 else Dealt(sb, free, sb.datastart + 269 * (i - 1) + j)
  }

  function PackedInode(sb: Super, free: set<nat>, i: nat, size: nat): (r: Inode)
    requires Sane(sb)
    ensures |r.addrs| == 13 && r.size == size && forall j :: 0 <= j < 13 ==> r.addrs[j] == Addr(sb, free, i, j)
  {
    Inode(seq(13, j requires 0 <= j < 13 => Addr(sb, free, i, j)), size)
  }

  /** All blocks in use but those in `free`; file `big` has the given size, and the others have none. */
  function Packed(sb: Super, free: set<nat>, big: nat, size: nat): (st: State)
    requires Sane(sb)
    ensures |st.inodes| == sb.ninodes
    ensures forall i :: 0 <= i < sb.ninodes ==> st.inodes[i] == PackedInode(sb, free, i, if i == big then size else 0)
  {
    State(Marks(sb, Bare(sb, free), sb.size, free),
      seq(sb.ninodes, i requires 0 <= i < sb.ninodes => PackedInode(sb, free, i, if i == big then size else 0)), {}, [])
  }

  ghost function Owned(sb: Super, free: set<nat>): Owners {
    map b: nat | sb.datastart <= b < sb.size && b !in free :: Holder(sb, b)
  }

  /** There are files for all blocks, and an entry that is dealt has its indirect block. */
  ghost predicate CanPack(sb: Super, free: set<nat>) {
    && Sane(sb) && 1 <= sb.ninodes && sb.size - sb.datastart <= 269 * (sb.ninodes - 1)
    && (forall b :: b in free ==> sb.datastart <= b < sb.size)
    && forall b: nat :: sb.datastart <= b < sb.size && b !in free && Holder(sb, b).Entry? ==> Root(sb, b) !in free
  }

  function Root(sb: Super, b: nat): nat
    requires sb.datastart <= b
  {
    sb.datastart + (b - sb.datastart) / 269 * 269 + 12
  }

  lemma PackedBlocks(sb: Super, free: set<nat>, big: nat, size: nat)
    requires Sane(sb)
    ensures var st := Packed(sb, free, big, size);
            && |st.blocks| == sb.size && st.logged == {} && st.writes == []
            && (forall c: nat :: c < sb.size ==> (Used(sb, st.blocks, c) <==> c !in free))
            && forall c: nat :: c < sb.size && (c < sb.bmapstart || sb.datastart <= c) ==>
                 st.blocks[c] == Bare(sb, free)[c]
  {
    hide Used, Table, Marks, Bare;
    BareUnused(sb, free);
    MarksOk(sb, Bare(sb, free), sb.size, free);
  }

  lemma BareUnused(sb: Super, free: set<nat>)
    requires Sane(sb)
    ensures forall c: nat :: c < sb.size ==> !Used(sb, Bare(sb, free), c)
  {
    hide Used, Table;
    var zero: Disk := seq(sb.size, _ => ZeroBlock());
    NothingUsed(sb, zero);
    UsedFrame(sb, zero, Bare(sb, free));
  }

  lemma PackedShape(sb: Super, free: set<nat>, big: nat, size: nat)
    requires Sane(sb) && size <= 274432
    ensures ShapeOk(sb, Packed(sb, free, big, size))
  {
    hide Marks, Bare;
    PackedBlocks(sb, free, big, size);
  }

  /** What is in each slot. */
  lemma PackedVal(sb: Super, free: set<nat>, big: nat, size: nat, s: Slot)
    requires CanPack(sb, free) && size <= 274432 && SlotOk(sb.ninodes, s)
    ensures ShapeOk(sb, Packed(sb, free, big, size))
    ensures Val(sb, Packed(sb, free, big, size), s) ==
            if s.inum == 0 then 0 else Dealt(sb, free, BlockFor(sb, s))
  {
    hide Marks, Bare, Word, Table, Sane;
    PackedShape(sb, free, big, size);
    if s.Entry? && s.inum > 0 {
      EntryVal(sb, free, big, size, s);
    }
  }

  lemma EntryVal(sb: Super, free: set<nat>, big: nat, size: nat, s: Slot)
    requires CanPack(sb, free) && size <= 274432 && SlotOk(sb.ninodes, s) && s.Entry? && s.inum > 0
    requires ShapeOk(sb, Packed(sb, free, big, size))
    ensures Val(sb, Packed(sb, free, big, size), s) == Dealt(sb, free, BlockFor(sb, s))
  {
    hide Marks, Bare, Word, Table, Sane, CanPack, Holder, Used;
    var c := BlockFor(sb, Indirect(s.inum));
    EntryRoot(sb, free, s);
    DataStart(sb);
    PackedBlocks(sb, free, big, size);
    if c < sb.size && c !in free {
      BareTable(sb, free, s.inum);
      TableWord(sb, free, c, 256, s.j);
    }
  }

  lemma BareTable(sb: Super, free: set<nat>, i: nat)
    requires Sane(sb) && 0 < i < sb.ninodes && BlockFor(sb, Indirect(i)) < sb.size
    requires BlockFor(sb, Indirect(i)) !in free
    ensures Bare(sb, free)[BlockFor(sb, Indirect(i))] == Table(sb, free, BlockFor(sb, Indirect(i)), 256)
  {
    hide Table, Sane;
    HolderBack(sb, sb.ninodes, Indirect(i));
  }

  /** An entry's block comes after its indirect block, and is dealt only with it. */
  lemma EntryRoot(sb: Super, free: set<nat>, s: Slot)
    requires CanPack(sb, free) && SlotOk(sb.ninodes, s) && s.Entry? && s.inum > 0
    ensures var c := BlockFor(sb, Indirect(s.inum));
            && BlockFor(sb, s) == c + 1 + s.j && sb.datastart <= c
            && (c >= sb.size || c in free ==> Dealt(sb, free, BlockFor(sb, s)) == 0)
  {
    hide Sane;
    HolderBack(sb, sb.ninodes, s);
    RootIs(sb, s);
  }

  lemma RootIs(sb: Super, s: Slot)
    requires s.Entry? && s.inum > 0 && s.j < 256
    ensures Root(sb, BlockFor(sb, s)) == BlockFor(sb, Indirect(s.inum))
  {
    var k := 269 * (s.inum - 1) + 13 + s.j;
    assert k / 269 == s.inum - 1;
  }

  lemma PackedOk(sb: Super, free: set<nat>, big: nat, size: nat)
    requires CanPack(sb, free) && size <= 274432
    ensures FsOk(sb, Packed(sb, free, big, size), Owned(sb, free))
  {
    hide Marks, Bare, Word, Table, Sane, Used, Val, Packed, Holder;
    PackedShape(sb, free, big, size);
    PackedBlocks(sb, free, big, size);
    DataStart(sb);
    var st, owner := Packed(sb, free, big, size), Owned(sb, free);
    forall s | SlotOk(sb.ninodes, s) && Val(sb, st, s) != 0
      ensures Val(sb, st, s) in owner && owner[Val(sb, st, s)] == s
    {
      PackedVal(sb, free, big, size, s);
      HolderBack(sb, sb.ninodes, s);
    }
    forall b | b in owner
      ensures sb.datastart <= b < sb.size && SlotOk(sb.ninodes, owner[b]) && Val(sb, st, owner[b]) == b
    {
      HolderFits(sb, b);
      PackedVal(sb, free, big, size, owner[b]);
    }
  }

  lemma HolderFits(sb: Super, b: nat)
    requires sb.datastart <= b < sb.size && 1 <= sb.ninodes && sb.size - sb.datastart <= 269 * (sb.ninodes - 1)
    ensures SlotOk(sb.ninodes, Holder(sb, b)) && Holder(sb, b).inum >= 1 && BlockFor(sb, Holder(sb, b)) == b
  {
    BlockBack(sb, b);
  }

  // ------------------------------------------------------------ a read that panics

  /** The disk that mkfs makes. */
  const MKFS := Super(2000, 32, 200, 233, 234)

  predicate Beyond(b: nat, lo: nat) {
    lo <= b
  }

  /** The blocks from `lo` on. */
  function From(sb: Super, lo: nat): set<nat> {
    set b: nat | b < sb.size && Beyond(b, lo)
  }

  lemma RootHole()
    ensures CanPack(MKFS, From(MKFS, 235)) && ShapeOk(MKFS, Packed(MKFS, From(MKFS, 235), 1, 2048))
    ensures var st := Packed(MKFS, From(MKFS, 235), 1, 2048);
            && !Full(MKFS, st) && |Part(File(MKFS, st, 1), 0, 2048)| == 2048
            && HoleInReach(MKFS, st, 1, 0, 2048, 2048)
  {
    hide Marks, Bare, Used, Val, Packed, ByteAt;
    var free := From(MKFS, 235);
    assert Beyond(1999, 235) && Beyond(235, 235);
    PackedShape(MKFS, free, 1, 2048);
    PackedBlocks(MKFS, free, 1, 2048);
    PackedVal(MKFS, free, 1, 2048, Direct(1, 1));
    var st := Packed(MKFS, free, 1, 2048);
    assert st.inodes[1].size == 2048;
    assert !Used(MKFS, st.blocks, 1999);
    assert Missing(MKFS, st, 1, 1024);
  }

  /** A root directory that fills its first block exactly: mkfs gives it the size of two, and the
      second one is a hole. Reading the directory, which fileread does outside any operation,
      panics. */
  method ReadPanics() returns (r: ReadResult)
    ensures r.Panicked?
  {
    hide Marks, Bare, Used, Val, Packed, ByteAt, Part, Full, HoleInReach, FsOk, From, CanPack;
    RootHole();
    PackedOk(MKFS, From(MKFS, 235), 1, 2048);
    var fs := new Fs.Mount(MKFS, Packed(MKFS, From(MKFS, 235), 1, 2048), Owned(MKFS, From(MKFS, 235)));
    r := Readi(fs, 1, 0, 2048, 2048, false);
  }

  // ------------------------------------------------------------ a write of eleven blocks

  /** A disk with five bitmap blocks. */
  const BIG := Super(40960, 2, 160, 162, 167)

  /** One block of each of them. */
  function Five(): set<nat> {
    {8191, 16383, 24575, 32767, 40959}
  }

  lemma FivePacked()
    ensures CanPack(BIG, Five())
  {
    forall b: nat | BIG.datastart <= b < BIG.size ensures Root(BIG, b) !in Five() {
      var q := (b - 167) / 269;
      assert Root(BIG, b) == 179 + 269 * q;
      assert 269 * 29 < 8191 - 179 < 269 * 30 && 269 * 60 < 16383 - 179 < 269 * 61;
      assert 269 * 90 < 24575 - 179 < 269 * 91 && 269 * 121 < 32767 - 179 < 269 * 122;
      assert 269 * 151 < 40959 - 179 < 269 * 152;
    }
  }

  /** File 0 has 12800 bytes and no block. */
  function Start(): State {
    Packed(BIG, Five(), 0, 12800)
  }

  /** The slots that a write of 3072 bytes at 12800 needs. */
  function Needed(): set<Slot> {
    {Indirect(0), Entry(0, 0), Entry(0, 1), Entry(0, 2), Entry(0, 3)}
  }

  /** What is known after such a write. */
  ghost predicate After(st: State, owner: Owners) {
    && FsOk(BIG, Start(), Owned(BIG, Five())) && FsOk(BIG, st, owner)
    && OthersKept(Start(), st, Owned(BIG, Five()), 0) && SlotsKept(BIG, Start(), st, 0, 12800, 3072)
  }

  /** A block of the five that has been taken is in one of those slots. */
  lemma TakenThere(st: State, owner: Owners, b: nat)
    requires After(st, owner) && b in Five() && b in owner
    ensures owner[b] in Needed() && Val(BIG, st, owner[b]) == b
  {
    hide Used, Val, Packed, Holder, SlotsOwn, BitsOk;
    FivePacked();
    var s := owner[b];
    PackedVal(BIG, Five(), 0, 12800, s);
    if s.inum != 0 {
      OtherVal(BIG, Start(), st, Owned(BIG, Five()), 0, s);
    } else if s.Direct? {
      assert SlotFor(0, s.i) == s;
    } else if s.Entry? {
      assert SlotFor(0, s.j + 12) == s;
    }
  }

  /** What is in one of those slots is one of the five. */
  lemma TakenFrom(st: State, owner: Owners, s: Slot)
    requires ShapeOk(BIG, st) && SlotOk(BIG.ninodes, s) && Val(BIG, st, s) != 0
    requires After(st, owner) && s in Needed()
    ensures Val(BIG, st, s) in Five() && Val(BIG, st, s) in owner && owner[Val(BIG, st, s)] == s
  {
    hide Used, Val, Packed, Holder, BitsOk;
    FivePacked();
    var b := Val(BIG, st, s);
    if b !in Five() {
      HolderFits(BIG, b);
      var t := Holder(BIG, b);
      PackedVal(BIG, Five(), 0, 12800, t);
      OtherVal(BIG, Start(), st, Owned(BIG, Five()), 0, t);
    }
  }

  /** If the disk is full, all five slots are filled. */
  lemma FullFillsAll(st: State, owner: Owners, z: Slot)
    requires ShapeOk(BIG, st) && SlotOk(BIG.ninodes, z) && Full(BIG, st)
    requires After(st, owner) && z in Needed()
    ensures Val(BIG, st, z) != 0
  {
    hide Used, Val, Packed, Holder, After, SlotsOwn, OwnersNamed, Needed;
    if Val(BIG, st, z) == 0 {
      forall b | b in Five() ensures b in owner {
        FullOwned(st, owner, b);
      }
      var s0, s1, s2, s3, s4 := owner[8191], owner[16383], owner[24575], owner[32767], owner[40959];
      TakenThere(st, owner, 8191);
      TakenThere(st, owner, 16383);
      TakenThere(st, owner, 24575);
      TakenThere(st, owner, 32767);
      TakenThere(st, owner, 40959);
      FiveDiffer(s0, s1, s2, s3, s4);
      NeededSize(z);
      SlotSubset({s0, s1, s2, s3, s4}, Needed() - {z});
    }
  }

  lemma FullOwned(st: State, owner: Owners, b: nat)
    requires ShapeOk(BIG, st) && Full(BIG, st) && After(st, owner) && b in Five()
    ensures b in owner
  {
    hide Used, Val, Packed;
  }

  lemma FiveDiffer<T>(a: T, b: T, c: T, d: T, e: T)
    requires a != b && a != c && a != d && a != e && b != c && b != d && b != e && c != d && c != e && d != e
    ensures |{a, b, c, d, e}| == 5
  {
    assert {a, b, c, d, e} == {a, b, c, d} + {e};
    assert {a, b, c, d} == {a, b, c} + {d};
    assert {a, b, c} == {a, b} + {c};
  }

  lemma NeededSize(z: Slot)
    requires z in Needed()
    ensures |Needed() - {z}| == 4
  {
    FiveDiffer(Indirect(0), Entry(0, 0), Entry(0, 1), Entry(0, 2), Entry(0, 3));
  }

  lemma SlotSubset(a: set<Slot>, b: set<Slot>)
    requires a <= b
    ensures |a| <= |b|
  {
    assert b == a + (b - a);
  }

  /** Block 12 + j of file 0 has a byte of the write in it. */
  ghost predicate Ones(st: State)
    requires ShapeOk(BIG, st)
  {
    forall p: nat :: 12800 <= p < 15872 ==> ByteAt(BIG, st, 0, p) == 1
  }

  function FirstByte(j: nat): nat {
    if j == 0 then 12800 else (12 + j) * 1024
  }

  lemma AllFilled(st: State, s: Slot)
    requires ShapeOk(BIG, st) && SlotOk(BIG.ninodes, s) && Ones(st) && s in Needed()
    ensures Val(BIG, st, s) != 0
    ensures s.Entry? ==> Val(BIG, st, s) < |st.blocks| && st.blocks[Val(BIG, st, s)][FirstByte(s.j) % 1024] == 1
  {
    hide Word, Sane;
    var p := FirstByte(if s.Entry? then s.j else 0);
    assert ByteAt(BIG, st, 0, p) == 1;
  }

  /** All five blocks have been taken. */
  lemma AllTaken(st: State, owner: Owners, f: nat)
    requires ShapeOk(BIG, st) && Ones(st) && After(st, owner) && f in Five()
    ensures f in owner
  {
    hide Used, Val, Packed, Holder, After, Ones;
    var v0, v1, v2 := Val(BIG, st, Indirect(0)), Val(BIG, st, Entry(0, 0)), Val(BIG, st, Entry(0, 1));
    var v3, v4 := Val(BIG, st, Entry(0, 2)), Val(BIG, st, Entry(0, 3));
    forall s | s in Needed()
      ensures SlotOk(BIG.ninodes, s) && Val(BIG, st, s) in Five() && Val(BIG, st, s) in owner
      ensures owner[Val(BIG, st, s)] == s
    {
      AllFilled(st, s);
      TakenFrom(st, owner, s);
    }
    FiveDiffer(v0, v1, v2, v3, v4);
    if f !in {v0, v1, v2, v3, v4} {
      FiveDiffer(8191, 16383, 24575, 32767, 40959);
      SubsetSize({v0, v1, v2, v3, v4}, Five() - {f});
    }
  }

  lemma BlockChanged(st: State, owner: Owners, f: nat)
    requires ShapeOk(BIG, st) && Ones(st) && After(st, owner) && f in Five()
    ensures f < |Start().blocks| == |st.blocks| && st.blocks[f] != Start().blocks[f]
  {
    hide Used, Packed, Holder, After, Ones, Marks, Table, Word;
    AllTaken(st, owner, f);
    TakenThere(st, owner, f);
    PackedBlocks(BIG, Five(), 0, 12800);
    assert Start().blocks[f] == ZeroBlock();
    AllFilled(st, owner[f]);
    if owner[f].Indirect? {
      AllFilled(st, Entry(0, 0));
      WordOfZero(0);
    }
  }

  lemma MapChanged(st: State, owner: Owners, f: nat)
    requires ShapeOk(BIG, st) && Ones(st) && After(st, owner) && f in Five()
    ensures Bblock(BIG, f) < |Start().blocks| == |st.blocks|
    ensures st.blocks[Bblock(BIG, f)] != Start().blocks[Bblock(BIG, f)]
  {
    hide Packed, Holder, Ones, Marks, Bare, MapBit, After, Val, Used;
    AllTaken(st, owner, f);
    OwnedIsUsed(st, owner, f);
    PackedBlocks(BIG, Five(), 0, 12800);
    SameMap(BIG, Start().blocks, st.blocks, f);
  }

  lemma OwnedIsUsed(st: State, owner: Owners, f: nat)
    requires ShapeOk(BIG, st) && After(st, owner) && f in owner && f < BIG.size
    ensures Used(BIG, st.blocks, f)
  {
    hide Used, Val, Packed, Holder, OthersKept, SlotsKept;
  }

  lemma SameMap(sb: Super, d: Disk, d': Disk, b: nat)
    requires Sane(sb) && |d| == |d'| == sb.size && b < sb.size
    ensures Bblock(sb, b) < |d| && (d'[Bblock(sb, b)] == d[Bblock(sb, b)] ==> (Used(sb, d', b) <==> Used(sb, d, b)))
  {
    BblockInRange(sb, b);
  }

  lemma InodeChanged(st: State, owner: Owners)
    requires ShapeOk(BIG, st) && Ones(st) && After(st, owner) && Synced(BIG, st, 0)
    ensures 2 < |Start().blocks| == |st.blocks| && st.blocks[2] != Start().blocks[2]
  {
    hide Used, Packed, Holder, After, Ones, Marks, Table, Word;
    PackedBlocks(BIG, Five(), 0, 12800);
    assert Start().blocks[2] == ZeroBlock();
    AllFilled(st, Indirect(0));
    WordOfZero(15);
    assert GetInode(st.blocks[2]).addrs[12] == Word(st.blocks[2], 15);
  }

  lemma Eleven(st: State, owner: Owners)
    requires ShapeOk(BIG, st) && Ones(st) && After(st, owner) && Synced(BIG, st, 0) && Logged(Start(), st)
    ensures |st.logged| >= 11
  {
    hide Used, Packed, Holder, After, Ones, Marks, Table, Word, Logged, Val, Synced, Start;
    forall f | f in Five() ensures f in st.logged && Bblock(BIG, f) in st.logged {
      BlockChanged(st, owner, f);
      ChangedIsLogged(Start(), st, f);
      MapChanged(st, owner, f);
      ChangedIsLogged(Start(), st, Bblock(BIG, f));
    }
    InodeChanged(st, owner);
    ChangedIsLogged(Start(), st, 2);
    var maps := {162, 163, 164, 165, 166};
    assert Bblock(BIG, 8191) == 162 && Bblock(BIG, 16383) == 163 && Bblock(BIG, 24575) == 164;
    assert Bblock(BIG, 32767) == 165 && Bblock(BIG, 40959) == 166;
    FiveDiffer(8191, 16383, 24575, 32767, 40959);
    FiveDiffer(162, 163, 164, 165, 166);
    assert |Five() + maps + {2}| == 11;
    SubsetSize(Five() + maps + {2}, st.logged);
  }

  /** A write of three blocks' worth of bytes in one operation, as filewrite makes it, that logs eleven
      blocks: four data blocks, five bitmap blocks, the indirect block and the inode. */
  method WriteLogsEleven() returns (n: nat)
    ensures n == 11
  {
    hide Used, Packed, Holder, Marks, Table, Word, Logged, Val, Synced, SlotsOwn, OwnersNamed, BitsOk, CanPack,
         WriteDone, StopsAt, SlotsKept, NoHoles, Full, ByteAt, Start, Five, After, Ones;
    FivePacked();
    StartOk();
    var fs := new Fs.Mount(BIG, Start(), Owned(BIG, Five()));
    var src: seq<byte> := seq(3072, _ => 1);
    var r, torn, clean := Writei(fs, 0, src, 12800, 3072, 0);
    Outcome(fs.st, fs.owner, src, r, torn);
    Eleven(fs.st, fs.owner);
    n := |fs.st.logged|;
  }

  lemma StartOk()
    ensures FsOk(BIG, Start(), Owned(BIG, Five())) && ShapeOk(BIG, Start()) && Start().inodes[0].size == 12800
    ensures Start().logged == {}
  {
    hide Used, Holder, Marks, Bare, Table, Word, Val, CanPack;
    FivePacked();
    PackedOk(BIG, Five(), 0, 12800);
  }

  /** What the contract of writei says here. */
  lemma Outcome(st: State, owner: Owners, src: seq<byte>, r: int, torn: nat)
    requires ShapeOk(BIG, st) && FsOk(BIG, Start(), Owned(BIG, Five())) && FsOk(BIG, st, owner)
    requires 0 <= r <= 3072 == |src| && forall i :: 0 <= i < 3072 ==> src[i] == 1
    requires WriteDone(BIG, Start(), Owned(BIG, Five()), st, 0, 12800, src, r, torn)
    requires SlotsKept(BIG, Start(), st, 0, 12800, 3072)
    requires r < 3072 ==> StopsAt(BIG, st, 0, 12800, 3072, r, 3072, 0, torn)
    ensures r == 3072 && After(st, owner) && Ones(st)
  {
    hide Used, Packed, Holder, Marks, Table, Word, Val, FsOk, SlotsKept, NoHoles, Full, ByteAt, Start, Five;
    assert After(st, owner);
    if r < 3072 {
      var z := SlotFor(0, (12800 + r) / 1024);
      assert z in Needed();
      FullFillsAll(st, owner, z);
    }
  }
}
