/** kernel/fs.c: block allocation and inode contents, changed in place. Blocks are read and
    logged whole; one operation runs at a time. */
module FsCode {
  import opened Blocks
  import opened Bitmap
  import opened Files

  // ------------------------------------------------------------ effects of balloc and bfree

  /** What balloc does: the first free block is marked and zeroed; both blocks are logged. */
  ghost predicate Alloced(sb: Super, st: State, st': State, b: nat) {
    && ShapeOk(sb, st) && sb.datastart <= b < sb.size && !Used(sb, st.blocks, b)
    && (forall c: nat :: c < b ==> Used(sb, st.blocks, c))
    && Bblock(sb, b) < sb.datastart
    && st' == LogWrite(LogWrite(st, Bblock(sb, b), Marked(st.blocks[Bblock(sb, b)], b % 8192)), b, ZeroBlock())
  }

  lemma AllocedUsed(sb: Super, st: State, st': State, b: nat)
    requires Alloced(sb, st, st', b)
    ensures ShapeOk(sb, st')
    ensures forall c: nat :: c < sb.size ==> (Used(sb, st'.blocks, c) <==> c == b || Used(sb, st.blocks, c))
    ensures forall c: nat :: sb.datastart <= c < sb.size && c != b ==> st'.blocks[c] == st.blocks[c]
    ensures st'.blocks[b] == ZeroBlock() && st'.inodes == st.inodes
  {
    hide ZeroBlock, Used, Marked;
    MarkOne(sb, st.blocks, b, true);
    UsedFrame(sb, st.blocks[Bblock(sb, b) := Marked(st.blocks[Bblock(sb, b)], b % 8192)], st'.blocks);
  }

  class Fs {
    const sb: Super
    var st: State
    ghost var owner: Owners

    ghost predicate Valid()
      reads this
    {
      FsOk(sb, st, owner)
    }

    /** A file system as mkfs makes it, before any file: the blocks before the data area are marked
        in the bitmap, one after the other, and nothing else is in use. */
    constructor (sb: Super)
      requires Sane(sb)
      ensures Valid() && this.sb == sb && owner == map[]
      ensures forall n :: 0 <= n < sb.ninodes ==> st.inodes[n].size == 0
    {
      this.sb, owner := sb, map[];
      st := State(seq(sb.size, _ => ZeroBlock()), seq(sb.ninodes, _ => Inode(seq(13, _ => 0), 0)), {}, []);
      new;
      hide Used, Marked;
      DataStart(sb);
      NothingUsed(sb, st.blocks);
      var i := 0;
      while i < sb.datastart
        invariant i <= sb.datastart && |st.blocks| == sb.size && |st.inodes| == sb.ninodes && owner == map[]
        invariant forall n :: 0 <= n < sb.ninodes ==> st.inodes[n] == Inode(seq(13, _ => 0), 0)
        invariant forall c: nat :: c < sb.size ==> (Used(sb, st.blocks, c) <==> c < i)
      {
        MarkNext(sb, st.blocks, i);
        st := st.(blocks := st.blocks[Bblock(sb, i) := Marked(st.blocks[Bblock(sb, i)], i % 8192)]);
        i := i + 1;
      }
    }

    /** A file system as it is found on a disk. */
    constructor Mount(sb: Super, st: State, ghost owner: Owners)
      requires FsOk(sb, st, owner)
      ensures Valid() && this.sb == sb && this.st == st && this.owner == owner
    {
      this.sb, this.st, this.owner := sb, st, owner;
    }

    /** The inner loop of balloc: the first clear bit of one bitmap block, within the disk. */
    method ScanBlock(b: nat, ghost k: nat) returns (r: nat)
      requires ShapeOk(sb, st) && b == 8192 * k && b < sb.size
      ensures b <= r <= b + 8192 && r <= sb.size
      ensures forall c: nat :: b <= c < r ==> Used(sb, st.blocks, c)
      ensures r < b + 8192 && r < sb.size ==> !Used(sb, st.blocks, r)
    {
      hide MapBit, Sane;
      var bi := 0;
      DataStart(sb);
      BblockInRange(sb, b);
      BitIndex(sb, k, 0);
      while bi < 8192 && b + bi < sb.size
        invariant bi <= 8192 && b + bi <= sb.size
        invariant forall c: nat :: b <= c < b + bi ==> Used(sb, st.blocks, c)
      {
        BitIndex(sb, k, bi);
        if !MapBit(st.blocks[Bblock(sb, b)], bi) {
          return b + bi;
        }
        bi := bi + 1;
      }
      r := b + bi;
    }

    /** balloc: the first free block, marked and zeroed, or 0 when every block is in use. */
    method Balloc() returns (r: nat)
      requires ShapeOk(sb, st) && forall c: nat :: c < sb.datastart ==> Used(sb, st.blocks, c)
      modifies this
      ensures owner == old(owner)
      ensures r == 0 ==> st == old(st) && forall c: nat :: c < sb.size ==> Used(sb, st.blocks, c)
      ensures r != 0 ==> Alloced(sb, old(st), st, r)
    {
      hide MapBit, Used, Marked, ZeroBlock;
      DataStart(sb);
      var b := 0;
      ghost var k := 0;
      while b < sb.size
        invariant b == 8192 * k && owner == old(owner) && st == old(st)
        invariant forall c: nat :: c < b && c < sb.size ==> Used(sb, st.blocks, c)
        decreases sb.size - b
      {
        var c := ScanBlock(b, k);
        if c < b + 8192 && c < sb.size {
          BitIndex(sb, k, c - b);
          BblockInRange(sb, c);
          var m := Bblock(sb, b);
          st := LogWrite(st, m, Marked(st.blocks[m], c - b));
          st := LogWrite(st, c, ZeroBlock());
          return c;
        }
        b := b + 8192;
        k := k + 1;
      }
      r := 0;
    }

    /** bmap: the block of a file, allocating it (and the indirect block) if it is missing. 0 is
        returned only when the disk is full. */
    method Bmap(inum: nat, bn: nat) returns (addr: nat)
      requires Valid() && inum < sb.ninodes && bn < MAXFILE
      modifies this
      ensures Valid() && MapStep(sb, old(st), old(owner), st, owner, inum, bn, addr)
    {
      hide SlotsOwn, OwnersNamed, BitsOk, Used, MapStep, Filled, SlotSet, Sane;
      if bn < 12 {
        addr := st.inodes[inum].addrs[bn];
        if addr == 0 {
          addr := MapDirect(inum, bn);
          StepFill(sb, old(st), old(owner), st, owner, inum, bn, addr);
        } else {
          NoStep(sb, st, owner, inum, bn);
        }
      } else {
        var ind := LoadIndirect(inum);
        ghost var st1, owner1 := st, owner;
        if ind == 0 {
          StepNoIndirect(sb, old(st), old(owner), st, owner, inum, bn);
          return 0;
        }
        addr := MapEntry(inum, ind, bn - 12);
        if old(Val(sb, st, Indirect(inum))) == 0 {
          FreshEntries(sb, old(st), old(owner), st1, owner1, inum, bn - 12, ind);
          StepBoth(sb, old(st), old(owner), st1, owner1, st, owner, inum, bn, addr);
        } else if old(Val(sb, st, Entry(inum, bn - 12))) == 0 {
          StepFill(sb, old(st), old(owner), st, owner, inum, bn, addr);
        } else {
          NoStep(sb, st, owner, inum, bn);
        }
      }
    }

    /** A missing direct block. */
    method MapDirect(inum: nat, bn: nat) returns (addr: nat)
      requires Valid() && inum < sb.ninodes && bn < 12 && Val(sb, st, Direct(inum, bn)) == 0
      modifies this
      ensures Valid() && Filled(sb, old(st), old(owner), st, owner, Direct(inum, bn), addr)
    {
      hide Used, Sane, Alloced;
      MetaUsed(sb, st, owner);
      addr := Balloc();
      if addr != 0 {
        FillDirect(sb, old(st), owner, st, inum, bn, addr);
        st := st.(inodes := st.inodes[inum := WithAddr(st.inodes[inum], bn, addr)]);
        owner := owner[addr := Direct(inum, bn)];
      }
    }

    /** The indirect block, allocated if necessary. */
    method LoadIndirect(inum: nat) returns (ind: nat)
      requires Valid() && inum < sb.ninodes
      modifies this
      ensures Valid() && ind == Val(sb, st, Indirect(inum))
      ensures if old(Val(sb, st, Indirect(inum))) != 0 then st == old(st) && owner == old(owner)
              else Filled(sb, old(st), old(owner), st, owner, Indirect(inum), ind)
    {
      hide Used, Sane, Alloced;
      ind := st.inodes[inum].addrs[12];
      if ind == 0 {
        MetaUsed(sb, st, owner);
        ind := Balloc();
        if ind != 0 {
          FillIndirect(sb, old(st), owner, st, inum, ind);
          st := st.(inodes := st.inodes[inum := WithAddr(st.inodes[inum], 12, ind)]);
          owner := owner[ind := Indirect(inum)];
        }
      }
    }

    /** An entry of the indirect block, allocated if necessary. */
    method MapEntry(inum: nat, ind: nat, j: nat) returns (addr: nat)
      requires Valid() && inum < sb.ninodes && j < 256 && ind == Val(sb, st, Indirect(inum)) != 0
      modifies this
      ensures Valid() && addr == Val(sb, st, Entry(inum, j))
      ensures if old(Val(sb, st, Entry(inum, j))) != 0 then st == old(st) && owner == old(owner)
              else Filled(sb, old(st), old(owner), st, owner, Entry(inum, j), addr)
    {
      hide Used, Sane, Alloced, Word, SetWord;
      OwnedRange(sb, st, owner, Indirect(inum));
      addr := Word(st.blocks[ind], j);
      if addr == 0 {
        MetaUsed(sb, st, owner);
        addr := Balloc();
        if addr != 0 {
          FillEntry(sb, old(st), owner, st, inum, ind, j, addr);
          st := LogWrite(st, ind, SetWord(st.blocks[ind], j, addr));
          owner := owner[addr := Entry(inum, j)];
        }
      }
    }

    /** bfree of a block in use. */
    method Bfree(b: nat)
      requires ShapeOk(sb, st) && b < sb.size && Used(sb, st.blocks, b)
      modifies this
      ensures owner == old(owner) && st.inodes == old(st.inodes) && ShapeOk(sb, st) && Bblock(sb, b) < sb.datastart
      ensures forall c: nat :: c < sb.size ==> (Used(sb, st.blocks, c) <==> c != b && Used(sb, old(st).blocks, c))
      ensures forall c: nat :: c < sb.size && c != Bblock(sb, b) ==> st.blocks[c] == old(st.blocks)[c]
      ensures st.logged == old(st.logged) + {Bblock(sb, b)} && Logged(old(st), st)
    {
      hide MapBit, Cleared, Marked, Logged;
      BblockInRange(sb, b);
      MarkOne(sb, st.blocks, b, false);
      var m := Bblock(sb, b);
      assert MapBit(st.blocks[m], b % 8192);  // the panic of kernel/fs.c:102 is out of reach
      LoggedOne(st, m, Cleared(st.blocks[m], b % 8192));
      st := LogWrite(st, m, Cleared(st.blocks[m], b % 8192));
    }
  }

  lemma {:induction false} NoBit(i: nat)
    ensures !Bit(0, i)
  {
    if i > 0 { NoBit(i - 1); }
  }

  lemma MarkNext(sb: Super, d: Disk, i: nat)
    requires Sane(sb) && |d| == sb.size && i < sb.size && forall c: nat :: c < sb.size ==> (Used(sb, d, c) <==> c < i)
    ensures Bblock(sb, i) < |d|
    ensures var d' := d[Bblock(sb, i) := Marked(d[Bblock(sb, i)], i % 8192)];
            forall c: nat :: c < sb.size ==> (Used(sb, d', c) <==> c < i + 1)
  {
    hide Used, Marked;
    BblockInRange(sb, i);
    var m := Bblock(sb, i);
    var d' := d[m := Marked(d[m], i % 8192)];
    MarkOne(sb, d, i, true);
    forall c: nat | c < sb.size ensures Used(sb, d', c) <==> c < i + 1 {
      assert Used(sb, d, c) <==> c < i;
      assert Used(sb, d', c) <==> if c == i then true else Used(sb, d, c);
    }
  }

  /** In a bitmap of zeros no block is in use. */
  lemma NothingUsed(sb: Super, d: Disk)
    requires Sane(sb) && |d| == sb.size && forall c: nat :: c < sb.size ==> d[c] == ZeroBlock()
    ensures forall c: nat :: c < sb.size ==> !Used(sb, d, c)
  {
    forall c: nat | c < sb.size ensures !Used(sb, d, c) {
      BblockInRange(sb, c);
      NoBit(c % 8192 % 8);
    }
  }

  lemma BitIndex(sb: Super, k: nat, bi: nat)
    requires bi < 8192
    ensures Bblock(sb, 8192 * k + bi) == k + sb.bmapstart == Bblock(sb, 8192 * k) && (8192 * k + bi) % 8192 == bi
  {
  }

  // ------------------------------------------------------------ bmap

  ghost predicate Full(sb: Super, st: State)
    requires ShapeOk(sb, st)
  {
    forall c: nat :: c < sb.size ==> Used(sb, st.blocks, c)
  }

  /** One attempt to put a fresh block into an empty slot. */
  ghost predicate Filled(sb: Super, st: State, owner: Owners, st': State, owner': Owners, s: Slot, b: nat) {
    && ShapeOk(sb, st) && ShapeOk(sb, st') && SlotOk(sb.ninodes, s)
    && if b == 0 then st' == st && owner' == owner && Full(sb, st)
       else
         && SlotSet(sb, st, st', s, b) && owner' == owner[b := s] && b !in owner && sb.datastart <= b < sb.size
         && st'.blocks[b] == ZeroBlock() && OthersKept(st, st', owner, s.inum) && DataKept(st, st', owner)
         && st'.inodes[s.inum].size == st.inodes[s.inum].size
         && Logged(st, st') && |st.writes| < |st'.writes| && HeadKept(sb, st, st', sb.size)
         && st'.logged == st.logged + {Bblock(sb, b), b} + if s.Entry? then {Val(sb, st, Indirect(s.inum))} else {}
  }

  function WithAddr(ino: Inode, i: nat, b: nat): (r: Inode)
    requires i < |ino.addrs| && b < 0x1_0000_0000
    ensures r.size == ino.size && |r.addrs| == |ino.addrs| && r.addrs[i] == b
  {
    var w: word := b;
    Inode(ino.addrs[i := w], ino.size)
  }

  lemma MetaUsed(sb: Super, st: State, owner: Owners)
    requires FsOk(sb, st, owner)
    ensures forall c: nat :: c < sb.datastart ==> c < sb.size && Used(sb, st.blocks, c)
  {
    DataStart(sb);
    hide Used;
  }

  /** The block in a filled slot is a data block. */
  lemma OwnedRange(sb: Super, st: State, owner: Owners, s: Slot)
    requires FsOk(sb, st, owner) && SlotOk(sb.ninodes, s) && Val(sb, st, s) != 0
    ensures sb.datastart <= Val(sb, st, s) < sb.size && Val(sb, st, s) in owner && owner[Val(sb, st, s)] == s
  {
    hide Used, Val;
  }

  /** A fresh block is nobody's, and marking and zeroing it moves no slot. */
  lemma AllocedFresh(sb: Super, st: State, owner: Owners, st1: State, b: nat)
    requires FsOk(sb, st, owner) && Alloced(sb, st, st1, b)
    ensures b !in owner && 0 < sb.datastart <= b < sb.size < 0x1_0000_0000 && ShapeOk(sb, st1)
    ensures forall s :: SlotOk(sb.ninodes, s) ==> Val(sb, st1, s) == Val(sb, st, s)
    ensures forall c :: c in owner ==> c < |st.blocks| && st1.blocks[c] == st.blocks[c]
    ensures st1.blocks[b] == ZeroBlock() && st1.inodes == st.inodes && Logged(st, st1) && HeadKept(sb, st, st1, sb.size)
    ensures st1.logged == st.logged + {Bblock(sb, b), b} && |st.writes| < |st1.writes|
    ensures forall c: nat :: c < sb.size ==> (Used(sb, st1.blocks, c) <==> c == b || Used(sb, st.blocks, c))
  {
    hide Used, ZeroBlock, Marked, Logged;
    DataStart(sb);
    AllocedUsed(sb, st, st1, b);
    BblockInRange(sb, b);
    AllocedLogged(sb, st, st1, b);
    forall s | SlotOk(sb.ninodes, s) ensures Val(sb, st1, s) == Val(sb, st, s) {
      if s.Entry? && Val(sb, st, Indirect(s.inum)) != 0 {
        OwnedRange(sb, st, owner, Indirect(s.inum));
      }
    }
  }

  lemma AllocedLogged(sb: Super, st: State, st1: State, b: nat)
    requires Alloced(sb, st, st1, b)
    ensures Logged(st, st1) && st1.logged == st.logged + {Bblock(sb, b), b} && |st.writes| < |st1.writes|
  {
    hide Used, ZeroBlock, Marked, Logged;
    var st' := LogWrite(st, Bblock(sb, b), Marked(st.blocks[Bblock(sb, b)], b % 8192));
    LoggedOne(st, Bblock(sb, b), Marked(st.blocks[Bblock(sb, b)], b % 8192));
    LoggedOne(st', b, ZeroBlock());
    LoggedChain(st, st', st1);
  }

  lemma FillDirect(sb: Super, st: State, owner: Owners, st1: State, inum: nat, bn: nat, b: nat)
    requires FsOk(sb, st, owner) && Alloced(sb, st, st1, b) && inum < sb.ninodes && bn < 12 &&
             Val(sb, st, Direct(inum, bn)) == 0
    ensures b < 0x1_0000_0000 && inum < |st1.inodes| && |st1.inodes[inum].addrs| == 13
    ensures var st2 := st1.(inodes := st1.inodes[inum := WithAddr(st1.inodes[inum], bn, b)]);
            var owner2 := owner[b := Direct(inum, bn)];
            FsOk(sb, st2, owner2) && Filled(sb, st, owner, st2, owner2, Direct(inum, bn), b)
  {
    hide Used, ZeroBlock, Word, SetWord, Sane, SlotsOwn, OwnersNamed, BitsOk, Alloced, Marked, Logged;
    AllocedFresh(sb, st, owner, st1, b);
    var st2 := st1.(inodes := st1.inodes[inum := WithAddr(st1.inodes[inum], bn, b)]);
    LoggedInodes(st, st1, st2);
    assert SlotSet(sb, st, st2, Direct(inum, bn), b);
    FillKeepsOk(sb, st, st2, owner, Direct(inum, bn), b);
  }

  lemma WordOfZero(j: nat)
    requires j < 256
    ensures Word(ZeroBlock(), j) == 0
  {
  }

  lemma FillIndirect(sb: Super, st: State, owner: Owners, st1: State, inum: nat, b: nat)
    requires FsOk(sb, st, owner) && Alloced(sb, st, st1, b) && inum < sb.ninodes && Val(sb, st, Indirect(inum)) == 0
    ensures b < 0x1_0000_0000 && inum < |st1.inodes| && |st1.inodes[inum].addrs| == 13
    ensures var st2 := st1.(inodes := st1.inodes[inum := WithAddr(st1.inodes[inum], 12, b)]);
            var owner2 := owner[b := Indirect(inum)];
            FsOk(sb, st2, owner2) && Filled(sb, st, owner, st2, owner2, Indirect(inum), b)
  {
    hide Used, ZeroBlock, Word, SetWord, Sane, SlotsOwn, OwnersNamed, BitsOk, Alloced, Marked, Logged;
    AllocedFresh(sb, st, owner, st1, b);
    var st2 := st1.(inodes := st1.inodes[inum := WithAddr(st1.inodes[inum], 12, b)]);
    LoggedInodes(st, st1, st2);
    forall s | SlotOk(sb.ninodes, s) ensures Val(sb, st2, s) == if s == Indirect(inum) then b else Val(sb, st, s) {
      if s.Entry? && s.inum == inum { WordOfZero(s.j); }
    }
    FillKeepsOk(sb, st, st2, owner, Indirect(inum), b);
  }

  lemma FillEntry(sb: Super, st: State, owner: Owners, st1: State, inum: nat, ind: nat, j: nat, b: nat)
    requires FsOk(sb, st, owner) && Alloced(sb, st, st1, b) && inum < sb.ninodes && j < 256
    requires ind == Val(sb, st, Indirect(inum)) != 0 && Val(sb, st, Entry(inum, j)) == 0
    ensures b < 0x1_0000_0000 && ind < |st1.blocks|
    ensures var st2 := LogWrite(st1, ind, SetWord(st1.blocks[ind], j, b));
            var owner2 := owner[b := Entry(inum, j)];
            FsOk(sb, st2, owner2) && Filled(sb, st, owner, st2, owner2, Entry(inum, j), b)
  {
    hide Used, ZeroBlock, Word, SetWord, Sane, SlotsOwn, OwnersNamed, BitsOk, Alloced, Marked, Logged;
    AllocedFresh(sb, st, owner, st1, b);
    OwnedRange(sb, st, owner, Indirect(inum));
    DataStart(sb);
    var st2 := LogWrite(st1, ind, SetWord(st1.blocks[ind], j, b));
    LoggedOne(st1, ind, SetWord(st1.blocks[ind], j, b));
    LoggedChain(st, st1, st2);
    EntryVals(sb, st, owner, st1, st2, inum, ind, j, b);
    UsedFrame(sb, st1.blocks, st2.blocks);
    FillKeepsOk(sb, st, st2, owner, Entry(inum, j), b);
  }

  lemma EntryVals(sb: Super, st: State, owner: Owners, st1: State, st2: State, inum: nat, ind: nat, j: nat, b: word)
    requires FsOk(sb, st, owner) && ShapeOk(sb, st1) && inum < sb.ninodes && j < 256 &&
             ind == Val(sb, st, Indirect(inum)) != 0
    requires ind < sb.size && st1.inodes == st.inodes
    requires forall s :: SlotOk(sb.ninodes, s) ==> Val(sb, st1, s) == Val(sb, st, s)
    requires st2 == LogWrite(st1, ind, SetWord(st1.blocks[ind], j, b))
    ensures SlotSet(sb, st, st2, Entry(inum, j), b)
  {
    hide Used, Word, SetWord, Sane;
    forall s | SlotOk(sb.ninodes, s) ensures Val(sb, st2, s) == if s == Entry(inum, j) then b else Val(sb, st, s) {
      if s.Entry? {
        if s.inum == inum {
          WordSetWord(st1.blocks[ind], j, b, s.j);
        } else {
          assert Val(sb, st1, s) == Val(sb, st, s);
          if Val(sb, st, Indirect(s.inum)) != 0 { OwnedRange(sb, st, owner, Indirect(s.inum)); }
          OwnedRange(sb, st, owner, Indirect(inum));
        }
      } else {
        assert Val(sb, st1, s) == Val(sb, st, s);
      }
    }
  }

  /** The bitmap blocks that one bmap has changed. */
  ghost function NewMaps(sb: Super, st: State, st': State, inum: nat, bn: nat): set<nat>
    requires ShapeOk(sb, st) && ShapeOk(sb, st') && inum < sb.ninodes && bn < MAXFILE
  {
    var ind, ind' := Val(sb, st, Indirect(inum)), Val(sb, st', Indirect(inum));
    var old', addr := Val(sb, st, SlotFor(inum, bn)), Val(sb, st', SlotFor(inum, bn));
    (if ind' != ind then {Bblock(sb, ind')} else {}) + if addr != old' then {Bblock(sb, addr)} else {}
  }

  function One(b: nat): set<nat> {
    if b == 0 then {} else {b}
  }

  /** What one bmap does to the file system. */
  ghost predicate MapStep(sb: Super, st: State, owner: Owners, st': State, owner': Owners, inum: nat, bn: nat,
                          addr: nat) {
    && ShapeOk(sb, st) && ShapeOk(sb, st') && inum < sb.ninodes && bn < MAXFILE
    && addr == Val(sb, st', SlotFor(inum, bn))
    && (Val(sb, st, SlotFor(inum, bn)) != 0 ==> st' == st && owner' == owner)
    && (addr == 0 ==> Full(sb, st')) && (Full(sb, st) ==> st' == st && owner' == owner)
    && |st.writes| <= |st'.writes| && (|st'.writes| == |st.writes| ==> st' == st && owner' == owner)
    && (forall i: nat :: i < MAXFILE && i != bn ==> Val(sb, st', SlotFor(inum, i)) == Val(sb, st, SlotFor(inum, i)))
    && (Val(sb, st, Indirect(inum)) != 0 ==> Val(sb, st', Indirect(inum)) == Val(sb, st, Indirect(inum)))
    && st'.inodes[inum].size == st.inodes[inum].size
    && OthersKept(st, st', owner, inum) && DataKept(st, st', owner)
    && (forall b :: b in owner ==> b in owner' && owner'[b] == owner[b])
    && (addr != 0 && Val(sb, st, SlotFor(inum, bn)) == 0 ==>
         addr !in owner && addr < |st'.blocks| && st'.blocks[addr] == ZeroBlock())
    && Logged(st, st') && HeadKept(sb, st, st', sb.size)
    && st'.logged <= st.logged + One(addr) + One(Val(sb, st', Indirect(inum))) + NewMaps(sb, st, st', inum, bn)
  }

  lemma NoStep(sb: Super, st: State, owner: Owners, inum: nat, bn: nat)
    requires FsOk(sb, st, owner) && inum < sb.ninodes && bn < MAXFILE && Val(sb, st, SlotFor(inum, bn)) != 0
    ensures MapStep(sb, st, owner, st, owner, inum, bn, Val(sb, st, SlotFor(inum, bn)))
  {
    hide Val, Used, Logged;
    LoggedSame(st, st);
  }

  lemma StepFill(sb: Super, st: State, owner: Owners, st': State, owner': Owners, inum: nat, bn: nat, addr: nat)
    requires FsOk(sb, st, owner) && inum < sb.ninodes && bn < MAXFILE && Val(sb, st, SlotFor(inum, bn)) == 0
    requires bn >= 12 ==> Val(sb, st, Indirect(inum)) != 0
    requires Filled(sb, st, owner, st', owner', SlotFor(inum, bn), addr)
    ensures MapStep(sb, st, owner, st', owner', inum, bn, addr)
  {
    hide Val, Used, Word, ZeroBlock, SlotsOwn, OwnersNamed, BitsOk, OthersKept, DataKept, Logged, HeadKept, Sane, Full;
    FilledSpare(sb, st, owner, st', owner', SlotFor(inum, bn), addr);
    if addr == 0 {
      KeptSame(st, owner, inum);
    }
  }

  /** A full disk has no block to fill a slot with. */
  lemma FilledSpare(sb: Super, st: State, owner: Owners, st': State, owner': Owners, s: Slot, b: nat)
    requires FsOk(sb, st, owner) && Filled(sb, st, owner, st', owner', s, b)
    ensures Full(sb, st) <==> b == 0
  {
    hide Val, Used, OthersKept, DataKept, Logged, HeadKept, SlotSet;
    DataStart(sb);
  }

  lemma KeptSame(st: State, owner: Owners, inum: nat)
    ensures OthersKept(st, st, owner, inum) && DataKept(st, st, owner) && Logged(st, st)
    ensures forall sb, but :: HeadKept(sb, st, st, but)
  {
    LoggedSame(st, st);
  }

  lemma StepNoIndirect(sb: Super, st: State, owner: Owners, st': State, owner': Owners, inum: nat, bn: nat)
    requires FsOk(sb, st, owner) && inum < sb.ninodes && 12 <= bn < MAXFILE && Val(sb, st, Indirect(inum)) == 0
    requires Filled(sb, st, owner, st', owner', Indirect(inum), 0)
    ensures MapStep(sb, st, owner, st', owner', inum, bn, 0)
  {
    hide Used, Word, ZeroBlock, Logged;
    LoggedSame(st, st');
  }

  lemma NoEntry(sb: Super, st: State, inum: nat, j: nat)
    requires ShapeOk(sb, st) && inum < sb.ninodes && j < 256 && Val(sb, st, Indirect(inum)) == 0
    ensures Val(sb, st, Entry(inum, j)) == 0
  {
  }

  lemma KeptChain(sb: Super, st: State, st1: State, st2: State, owner: Owners, owner1: Owners, inum: nat)
    requires OthersKept(st, st1, owner, inum) && OthersKept(st1, st2, owner1, inum)
    requires DataKept(st, st1, owner) && DataKept(st1, st2, owner1) && Logged(st, st1) && Logged(st1, st2)
    requires HeadKept(sb, st, st1, sb.size) && HeadKept(sb, st1, st2, sb.size)
    requires forall b :: b in owner ==> b in owner1 && owner1[b] == owner[b]
    ensures OthersKept(st, st2, owner, inum) && DataKept(st, st2, owner) && Logged(st, st2) &&
            HeadKept(sb, st, st2, sb.size)
  {
    hide Logged;
    LoggedChain(st, st1, st2);
  }

  lemma FreshEntries(sb: Super, st: State, owner: Owners, st1: State, owner1: Owners, inum: nat, j: nat, ind: nat)
    requires ShapeOk(sb, st) && inum < sb.ninodes && j < 256 && Val(sb, st, Indirect(inum)) == 0 && ind != 0
    requires Filled(sb, st, owner, st1, owner1, Indirect(inum), ind)
    ensures Val(sb, st1, Entry(inum, j)) == 0
  {
    hide Val, Used;
    NoEntry(sb, st, inum, j);
  }

  /** Both the indirect block and the entry were missing. */
  lemma StepBoth(sb: Super, st: State, owner: Owners, st1: State, owner1: Owners, st2: State, owner2: Owners, inum: nat,
                 bn: nat, addr: nat)
    requires FsOk(sb, st, owner) && inum < sb.ninodes && 12 <= bn < MAXFILE && FsOk(sb, st1, owner1)
    requires Val(sb, st, Indirect(inum)) == 0 && Val(sb, st1, Indirect(inum)) != 0
    requires Filled(sb, st, owner, st1, owner1, Indirect(inum), Val(sb, st1, Indirect(inum)))
    requires Filled(sb, st1, owner1, st2, owner2, Entry(inum, bn - 12), addr)
    ensures MapStep(sb, st, owner, st2, owner2, inum, bn, addr)
  {
    hide Val, Used, Word, ZeroBlock, SlotsOwn, OwnersNamed, BitsOk, OthersKept, DataKept, Logged, HeadKept, Sane, Full;
    FilledSpare(sb, st, owner, st1, owner1, Indirect(inum), Val(sb, st1, Indirect(inum)));
    NoEntry(sb, st, inum, bn - 12);
    if addr == 0 {
      KeptSame(st1, owner1, inum);
    }
    KeptChain(sb, st, st1, st2, owner, owner1, inum);
    assert Val(sb, st2, Indirect(inum)) == Val(sb, st1, Indirect(inum));
    assert NewMaps(sb, st, st2, inum, bn) ==
           {Bblock(sb, Val(sb, st1, Indirect(inum)))} + if addr != 0 then {Bblock(sb, addr)} else {};
  }
}
