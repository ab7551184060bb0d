/** kernel/fs.c, iupdate and itrunc. */
module FileTrunc {
  import opened Blocks
  import opened Bitmap
  import opened Files
  import opened FsCode

  // ------------------------------------------------------------ iupdate

  /** The size and block numbers of an inode as words 2 to 15 of its block. */
  function PutAddrs(bk: Block, addrs: seq<word>, i: nat): Block
    requires i <= |addrs| == 13
    decreases 13 - i
  {
    if i == 13 then bk else PutAddrs(SetWord(bk, 3 + i, addrs[i]), addrs, i + 1)
  }

  function PutInode(bk: Block, ino: Inode): Block
    requires |ino.addrs| == 13 && ino.size < 0x1_0000_0000
  {
    var w: word := ino.size;
    PutAddrs(SetWord(bk, 2, w), ino.addrs, 0)
  }

  /** What ilock reads back from an inode's block. */
  function GetInode(bk: Block): Inode {
    Inode(seq(13, i requires 0 <= i < 13 => Word(bk, 3 + i)), Word(bk, 2))
  }

  lemma {:induction false} PutAddrsWords(bk: Block, addrs: seq<word>, i: nat, j: nat)
    requires i <= |addrs| == 13 && j < 256
    ensures Word(PutAddrs(bk, addrs, i), j) == if 3 + i <= j < 16 then addrs[j - 3] else Word(bk, j)
    decreases 13 - i
  {
    if i < 13 {
      PutAddrsWords(SetWord(bk, 3 + i, addrs[i]), addrs, i + 1, j);
      WordSetWord(bk, 3 + i, addrs[i], j);
    }
  }

  /** iupdate and the read in ilock are inverse; the other words of the block stay. */
  lemma InodeRoundTrip(bk: Block, ino: Inode)
    requires |ino.addrs| == 13 && ino.size < 0x1_0000_0000
    ensures GetInode(PutInode(bk, ino)) == ino
    ensures forall j: nat :: j < 256 && (j < 2 || j >= 16) ==> Word(PutInode(bk, ino), j) == Word(bk, j)
  {
    hide Word, SetWord, PutAddrs;
    var w: word := ino.size;
    forall j: nat | j < 256
      ensures Word(PutInode(bk, ino), j) == if j == 2 then ino.size else if 3 <= j < 16 then ino.addrs[j - 3]
              else Word(bk, j)
    {
      PutAddrsWords(SetWord(bk, 2, w), ino.addrs, 0, j);
      WordSetWord(bk, 2, w, j);
    }
  }

  /** The inode on disk is the one in memory. */
  ghost predicate Synced(sb: Super, st: State, inum: nat)
    requires ShapeOk(sb, st) && inum < sb.ninodes
  {
    DataStart(sb);
    GetInode(st.blocks[sb.inodestart + inum]) == st.inodes[inum]
  }

  /** A block outside bitmap and data area is rewritten and logged. */
  ghost predicate MetaWrite(sb: Super, st: State, st': State, m: nat) {
    && ShapeOk(sb, st) && m < sb.bmapstart && |st'.blocks| == |st.blocks| && m < |st.blocks|
    && st'.inodes == st.inodes && st'.logged == st.logged + {m} && Logged(st, st')
    && forall c: nat :: c < |st.blocks| && c != m ==> st'.blocks[c] == st.blocks[c]
  }

  /** Such a write changes neither files nor their blocks. */
  lemma MetaKeeps(sb: Super, st: State, owner: Owners, st': State, m: nat)
    requires FsOk(sb, st, owner) && MetaWrite(sb, st, st', m)
    ensures FsOk(sb, st', owner) && Logged(st, st')
    ensures forall s :: SlotOk(sb.ninodes, s) ==> Val(sb, st', s) == Val(sb, st, s)
    ensures forall c: nat :: sb.datastart <= c < sb.size ==> st'.blocks[c] == st.blocks[c]
  {
    hide Used, Word, Logged;
    DataStart(sb);
    UsedFrame(sb, st.blocks, st'.blocks);
    forall s | SlotOk(sb.ninodes, s) ensures Val(sb, st', s) == Val(sb, st, s) {
      if s.Entry? && Val(sb, st, Indirect(s.inum)) != 0 { OwnedRange(sb, st, owner, Indirect(s.inum)); }
    }
    hide Val;
  }

  method Iupdate(fs: Fs, inum: nat)
    requires fs.Valid() && inum < fs.sb.ninodes
    modifies fs
    ensures fs.Valid() && fs.owner == old(fs.owner) && Synced(fs.sb, fs.st, inum)
    ensures MetaWrite(fs.sb, old(fs.st), fs.st, fs.sb.inodestart + inum) && fs.st == Updated(fs.sb, old(fs.st), inum)
  {
    hide Used, Word, SetWord, PutInode, GetInode, Logged, Synced, MetaWrite;
    DataStart(fs.sb);
    var b := fs.sb.inodestart + inum;
    UpdatedOk(fs.sb, fs.st, fs.owner, inum);
    fs.st := LogWrite(fs.st, b, PutInode(fs.st.blocks[b], fs.st.inodes[inum]));
  }

  /** What iupdate leaves. */
  function Updated(sb: Super, st: State, inum: nat): State
    requires ShapeOk(sb, st) && inum < sb.ninodes
  {
    DataStart(sb);
    var b := sb.inodestart + inum;
    LogWrite(st, b, PutInode(st.blocks[b], st.inodes[inum]))
  }

  lemma UpdatedOk(sb: Super, st: State, owner: Owners, inum: nat)
    requires FsOk(sb, st, owner) && inum < sb.ninodes
    ensures FsOk(sb, Updated(sb, st, inum), owner) && Synced(sb, Updated(sb, st, inum), inum)
    ensures MetaWrite(sb, st, Updated(sb, st, inum), sb.inodestart + inum)
  {
    hide Used, Word, SetWord, PutInode, GetInode, Logged;
    DataStart(sb);
    var b := sb.inodestart + inum;
    InodeRoundTrip(st.blocks[b], st.inodes[inum]);
    LoggedOne(st, b, PutInode(st.blocks[b], st.inodes[inum]));
    MetaKeeps(sb, st, owner, Updated(sb, st, inum), b);
  }

  // ------------------------------------------------------------ itrunc

  /** Slots that itrunc has emptied or freed: direct ones below i, entries below j. */
  predicate Gone(s: Slot, inum: nat, i: nat, j: nat) {
    s.inum == inum && ((s.Direct? && s.i < i) || (s.Entry? && s.j < j))
  }

  ghost predicate TruncInv(sb: Super, st0: State, owner0: Owners, st: State, inum: nat, i: nat, j: nat) {
    && FsOk(sb, st0, owner0) && inum < sb.ninodes && i <= 12 && ShapeOk(sb, st)
    && (forall n :: 0 <= n < |st0.inodes| && n != inum ==> st.inodes[n] == st0.inodes[n])
    && (forall x :: 0 <= x < 13 ==> st.inodes[inum].addrs[x] == if x < i then 0 else st0.inodes[inum].addrs[x])
    && (forall c: nat :: c < sb.bmapstart || sb.datastart <= c < sb.size ==> st.blocks[c] == st0.blocks[c])
    && (forall c: nat :: c < sb.size ==>
         (Used(sb, st.blocks, c) <==> c < sb.datastart || (c in owner0 && !Gone(owner0[c], inum, i, j))))
    && Logged(st0, st) && (forall c :: c in st.logged && c !in st0.logged ==> sb.bmapstart <= c < sb.datastart)
  }

  lemma TruncStart(sb: Super, st: State, owner: Owners, inum: nat)
    requires FsOk(sb, st, owner) && inum < sb.ninodes
    ensures TruncInv(sb, st, owner, st, inum, 0, 0)
  {
    hide Used, Val, Logged;
    LoggedSame(st, st);
  }

  /** A block still named by a slot is still in use. */
  lemma TruncOwned(sb: Super, st0: State, owner0: Owners, st: State, inum: nat, i: nat, j: nat, s: Slot)
    requires TruncInv(sb, st0, owner0, st, inum, i, j) && SlotOk(sb.ninodes, s) && s.inum == inum &&
             !Gone(s, inum, i, j)
    requires Val(sb, st0, s) != 0
    ensures Val(sb, st0, s) < sb.size && Used(sb, st.blocks, Val(sb, st0, s)) && sb.datastart <= Val(sb, st0, s)
  {
    hide Used, Val;
    OwnedRange(sb, st0, owner0, s);
  }

  /** One bfree, and nothing else, between two rounds. */
  ghost predicate Freed(sb: Super, st: State, st': State, b: nat) {
    && ShapeOk(sb, st) && ShapeOk(sb, st') && sb.datastart <= b < sb.size && st'.inodes == st.inodes
    && (forall c: nat :: c < sb.size ==> (Used(sb, st'.blocks, c) <==> c != b && Used(sb, st.blocks, c)))
    && sb.bmapstart <= Bblock(sb, b) < sb.datastart && st'.logged == st.logged + {Bblock(sb, b)} && Logged(st, st')
    && (forall c: nat :: c < sb.size && c != Bblock(sb, b) ==> st'.blocks[c] == st.blocks[c])
  }

  /** The slot's block (if any) has been freed: the slot counts as gone. */
  lemma TruncNext(sb: Super, st0: State, owner0: Owners, st: State, st': State, inum: nat, i: nat, j: nat, s: Slot)
    requires TruncInv(sb, st0, owner0, st, inum, i, j)
    requires (s == Direct(inum, i) && i < 12) || (s == Entry(inum, j) && j < 256)
    requires if Val(sb, st0, s) == 0 then st' == st else Freed(sb, st, st', Val(sb, st0, s))
    ensures forall c: nat :: c < sb.size ==>
              (Used(sb, st'.blocks, c) <==>
                 c < sb.datastart || (c in owner0 &&
                   !Gone(owner0[c], inum, if s.Direct? then i + 1 else i, if s.Entry? then j + 1 else j)))
    ensures Logged(st0, st') && (forall c :: c in st'.logged && c !in st0.logged ==> sb.bmapstart <= c < sb.datastart)
  {
    hide Used, Val, Sane, Logged;
    DataStart(sb);
    if Val(sb, st0, s) != 0 {
      OwnedRange(sb, st0, owner0, s);
      LoggedChain(st0, st, st');
    }
    forall c: nat | c < sb.size
      ensures Used(sb, st'.blocks, c) <==>
              c < sb.datastart || (c in owner0 &&
                !Gone(owner0[c], inum, if s.Direct? then i + 1 else i, if s.Entry? then j + 1 else j))
    {
      if c in owner0 { assert Val(sb, st0, owner0[c]) == c; }
    }
  }

  ghost function Others(owner: Owners, inum: nat): Owners {
    map b | b in owner && owner[b].inum != inum :: owner[b]
  }

  predicate IsBitmap(sb: Super, c: nat) {
    sb.bmapstart <= c < sb.datastart
  }

  ghost function Bitmaps(sb: Super): set<nat> {
    set c: nat | c < sb.datastart && IsBitmap(sb, c)
  }

  /** All blocks of the file are free and its block numbers are 0. */
  ghost predicate TruncAll(sb: Super, st0: State, owner0: Owners, st: State, inum: nat) {
    && FsOk(sb, st0, owner0) && inum < sb.ninodes && ShapeOk(sb, st)
    && (forall n :: 0 <= n < |st0.inodes| && n != inum ==> st.inodes[n] == st0.inodes[n])
    && (forall x :: 0 <= x < 13 ==> st.inodes[inum].addrs[x] == 0)
    && (forall c: nat :: c < sb.bmapstart || sb.datastart <= c < sb.size ==> st.blocks[c] == st0.blocks[c])
    && (forall c: nat :: c < sb.size ==>
         (Used(sb, st.blocks, c) <==> c < sb.datastart || (c in owner0 && owner0[c].inum != inum)))
    && Logged(st0, st) && (forall c :: c in st.logged && c !in st0.logged ==> sb.bmapstart <= c < sb.datastart)
  }

  lemma TruncNoIndirect(sb: Super, st0: State, owner0: Owners, st: State, inum: nat)
    requires TruncInv(sb, st0, owner0, st, inum, 12, 0) && st.inodes[inum].addrs[12] == 0
    ensures TruncAll(sb, st0, owner0, st, inum)
  {
    hide Used, Sane, Logged;
    DataStart(sb);
    forall c | c in owner0 && owner0[c].inum == inum ensures Gone(owner0[c], inum, 12, 0) {
      assert Val(sb, st0, owner0[c]) == c;
    }
  }

  /** The indirect block itself is freed last. */
  lemma TruncIndirectDone(sb: Super, st0: State, owner0: Owners, st: State, st': State, st2: State, inum: nat, ind: nat)
    requires TruncInv(sb, st0, owner0, st, inum, 12, 256) && ind == Val(sb, st0, Indirect(inum)) != 0
    requires Freed(sb, st, st', ind)
    requires st2 == st'.(inodes := st'.inodes[inum := WithAddr(st'.inodes[inum], 12, 0)])
    ensures TruncAll(sb, st0, owner0, st2, inum)
  {
    hide Used, Sane, Val, Logged;
    DataStart(sb);
    OwnedRange(sb, st0, owner0, Indirect(inum));
    LoggedChain(st0, st, st');
    LoggedInodes(st0, st', st2);
    forall c: nat | c < sb.size
      ensures Used(sb, st2.blocks, c) <==> c < sb.datastart || (c in owner0 && owner0[c].inum != inum)
    {
      if c in owner0 { assert Val(sb, st0, owner0[c]) == c && SlotOk(sb.ninodes, owner0[c]); }
    }
  }

  lemma TruncDone(sb: Super, st0: State, owner0: Owners, st: State, inum: nat)
    requires TruncAll(sb, st0, owner0, st, inum)
    ensures var st' := st.(inodes := st.inodes[inum := st.inodes[inum].(size := 0)]);
            && FsOk(sb, st', Others(owner0, inum)) && OthersKept(st0, st', owner0, inum) && Logged(st0, st')
            && (forall s :: SlotOk(sb.ninodes, s) && s.inum == inum ==> Val(sb, st', s) == 0)
            && st'.logged <= st0.logged + Bitmaps(sb) && HeadKept(sb, st0, st', sb.size)
  {
    hide Used, Sane, Word, Logged;
    DataStart(sb);
    var st' := st.(inodes := st.inodes[inum := st.inodes[inum].(size := 0)]);
    forall c | c in owner0 ensures sb.datastart <= c < sb.size {
    }
    forall s | SlotOk(sb.ninodes, s) ensures Val(sb, st', s) == if s.inum == inum then 0 else Val(sb, st0, s) {
      if s.inum != inum { OtherVal(sb, st0, st', owner0, inum, s); }
    }
    LoggedInodes(st0, st, st');
    TruncOwners(sb, st0, owner0, st', inum);
  }

  lemma TruncOwners(sb: Super, st0: State, owner0: Owners, st': State, inum: nat)
    requires FsOk(sb, st0, owner0) && ShapeOk(sb, st') && inum < sb.ninodes
    requires forall s :: SlotOk(sb.ninodes, s) ==> Val(sb, st', s) == if s.inum == inum then 0 else Val(sb, st0, s)
    requires forall c: nat :: c < sb.size ==>
               (Used(sb, st'.blocks, c) <==> c < sb.datastart || (c in owner0 && owner0[c].inum != inum))
    ensures FsOk(sb, st', Others(owner0, inum))
  {
    hide Used, Sane, Val;
  }

  lemma TruncFacts(sb: Super, st0: State, owner0: Owners, st: State, inum: nat, i: nat, j: nat)
    requires TruncInv(sb, st0, owner0, st, inum, i, j)
    ensures inum < |st.inodes| && |st.inodes[inum].addrs| == 13 &&
            st.inodes[inum].addrs[12] == Val(sb, st0, Indirect(inum))
    ensures ShapeOk(sb, st0) && ShapeOk(sb, st)
  {
  }

  /** itrunc: every block of the file, and no other, becomes free; the file is empty. */
  method Itrunc(fs: Fs, inum: nat)
    requires fs.Valid() && inum < fs.sb.ninodes
    modifies fs
    ensures fs.Valid() && fs.owner == Others(old(fs.owner), inum)
    ensures fs.st.inodes[inum].size == 0 &&
            (forall s :: SlotOk(fs.sb.ninodes, s) && s.inum == inum ==> Val(fs.sb, fs.st, s) == 0)
    ensures OthersKept(old(fs.st), fs.st, old(fs.owner), inum) && Logged(old(fs.st), fs.st) &&
            Synced(fs.sb, fs.st, inum)
    ensures fs.st.logged <= old(fs.st.logged) + Bitmaps(fs.sb) + {fs.sb.inodestart + inum}
    ensures HeadKept(fs.sb, old(fs.st), fs.st, fs.sb.inodestart + inum)
  {
    hide Used, Val, Sane, TruncInv, TruncAll, Synced, Bblock, SlotsOwn, OwnersNamed, BitsOk, OthersKept, Logged, Others,
         Bitmaps, HeadKept;
    ghost var sb, st0, owner0 := fs.sb, fs.st, fs.owner;
    TruncStart(fs.sb, st0, owner0, inum);
    var i := 0;
    while i < 12
      invariant i <= 12 && fs.owner == owner0 && TruncInv(sb, st0, owner0, fs.st, inum, i, 0)
    {
      TruncDirect(fs, inum, i, st0);
      i := i + 1;
    }
    TruncFacts(sb, st0, owner0, fs.st, inum, 12, 0);
    var ind := fs.st.inodes[inum].addrs[12];
    if ind != 0 {
      TruncIndirect(fs, inum, ind, st0);
    } else {
      TruncNoIndirect(sb, st0, owner0, fs.st, inum);
    }
    TruncDone(sb, st0, owner0, fs.st, inum);
    AllShape(sb, st0, owner0, fs.st, inum);
    fs.st := fs.st.(inodes := fs.st.inodes[inum := fs.st.inodes[inum].(size := 0)]);
    fs.owner := Others(owner0, inum);
    ghost var st1 := fs.st;
    Iupdate(fs, inum);
    TruncSynced(sb, st0, owner0, st1, fs.st, fs.owner, inum);
  }

  lemma AllShape(sb: Super, st0: State, owner0: Owners, st: State, inum: nat)
    requires TruncAll(sb, st0, owner0, st, inum)
    ensures inum < |st.inodes|
  {
  }

  lemma TruncSynced(sb: Super, st0: State, owner0: Owners, st1: State, st2: State, owner: Owners, inum: nat)
    requires FsOk(sb, st0, owner0) && FsOk(sb, st1, owner) && inum < sb.ninodes &&
             MetaWrite(sb, st1, st2, sb.inodestart + inum)
    requires OthersKept(st0, st1, owner0, inum) && Logged(st0, st1) && st1.logged <= st0.logged + Bitmaps(sb) &&
             HeadKept(sb, st0, st1, sb.size)
    requires forall s :: SlotOk(sb.ninodes, s) && s.inum == inum ==> Val(sb, st1, s) == 0
    ensures OthersKept(st0, st2, owner0, inum) && Logged(st0, st2) && ShapeOk(sb, st2)
    ensures forall s :: SlotOk(sb.ninodes, s) && s.inum == inum ==> Val(sb, st2, s) == 0
    ensures st2.logged <= st0.logged + Bitmaps(sb) + {sb.inodestart + inum} &&
            HeadKept(sb, st0, st2, sb.inodestart + inum)
  {
    hide Used, Val, Sane, Logged;
    DataStart(sb);
    MetaKeeps(sb, st1, owner, st2, sb.inodestart + inum);
    LoggedChain(st0, st1, st2);
  }

  /** The indirect part of itrunc. */
  method TruncIndirect(fs: Fs, inum: nat, ind: nat, ghost st0: State)
    requires inum < fs.sb.ninodes && TruncInv(fs.sb, st0, fs.owner, fs.st, inum, 12, 0) &&
             ind == Val(fs.sb, st0, Indirect(inum)) != 0
    modifies fs
    ensures fs.owner == old(fs.owner) && TruncAll(fs.sb, st0, fs.owner, fs.st, inum)
  {
    hide Used, Val, Sane, TruncInv, TruncAll, Bblock, SlotsOwn, OwnersNamed, BitsOk, Word, Logged;
    ghost var sb, owner0 := fs.sb, fs.owner;
    TruncOwned(sb, st0, owner0, fs.st, inum, 12, 0, Indirect(inum));
    TruncFacts(sb, st0, owner0, fs.st, inum, 12, 0);
    var a := fs.st.blocks[ind];
    EntriesOf(sb, st0, owner0, fs.st, inum, ind);
    var j := 0;
    while j < 256
      invariant j <= 256 && fs.owner == owner0 && TruncInv(sb, st0, owner0, fs.st, inum, 12, j)
    {
      TruncEntry(fs, inum, j, Word(a, j), st0);
      j := j + 1;
    }
    TruncFacts(sb, st0, owner0, fs.st, inum, 12, 256);
    TruncOwned(sb, st0, owner0, fs.st, inum, 12, 256, Indirect(inum));
    BblockInRange(sb, ind);
    ghost var st := fs.st;
    fs.Bfree(ind);
    ghost var st' := fs.st;
    fs.st := fs.st.(inodes := fs.st.inodes[inum := WithAddr(fs.st.inodes[inum], 12, 0)]);
    TruncIndirectDone(sb, st0, owner0, st, st', fs.st, inum, ind);
  }

  lemma EntriesOf(sb: Super, st0: State, owner0: Owners, st: State, inum: nat, ind: nat)
    requires TruncInv(sb, st0, owner0, st, inum, 12, 0) && ind == Val(sb, st0, Indirect(inum)) != 0 &&
             sb.datastart <= ind < sb.size
    ensures ind < |st.blocks| && forall j: nat :: j < 256 ==> Word(st.blocks[ind], j) == Val(sb, st0, Entry(inum, j))
  {
    hide Used, Word;
  }

  /** One round of the loop over the indirect block's entries. */
  method TruncEntry(fs: Fs, inum: nat, j: nat, b: nat, ghost st0: State)
    requires inum < fs.sb.ninodes && j < 256 && TruncInv(fs.sb, st0, fs.owner, fs.st, inum, 12, j) &&
             b == Val(fs.sb, st0, Entry(inum, j))
    modifies fs
    ensures fs.owner == old(fs.owner) && TruncInv(fs.sb, st0, fs.owner, fs.st, inum, 12, j + 1)
  {
    hide Used, Val, Sane, SlotsOwn, OwnersNamed, BitsOk, Bblock, Logged;
    ghost var sb, owner0, st := fs.sb, fs.owner, fs.st;
    if b != 0 {
      TruncOwned(sb, st0, owner0, fs.st, inum, 12, j, Entry(inum, j));
      BblockInRange(sb, b);
      fs.Bfree(b);
    }
    TruncNext(sb, st0, owner0, st, fs.st, inum, 12, j, Entry(inum, j));
  }

  /** One round of the direct loop. */
  method TruncDirect(fs: Fs, inum: nat, i: nat, ghost st0: State)
    requires inum < fs.sb.ninodes && i < 12 && TruncInv(fs.sb, st0, fs.owner, fs.st, inum, i, 0)
    modifies fs
    ensures fs.owner == old(fs.owner) && TruncInv(fs.sb, st0, fs.owner, fs.st, inum, i + 1, 0)
  {
    hide Used, Sane, SlotsOwn, OwnersNamed, BitsOk, Bblock, Logged;
    DataStart(fs.sb);
    ghost var sb, owner0, st := fs.sb, fs.owner, fs.st;
    var b := fs.st.inodes[inum].addrs[i];
    if b != 0 {
      TruncOwned(sb, st0, owner0, fs.st, inum, i, 0, Direct(inum, i));
      BblockInRange(sb, b);
      fs.Bfree(b);
      TruncNext(sb, st0, owner0, st, fs.st, inum, i, 0, Direct(inum, i));
      ghost var st' := fs.st;
      fs.st := fs.st.(inodes := fs.st.inodes[inum := WithAddr(fs.st.inodes[inum], i, 0)]);
      LoggedInodes(st0, st', fs.st);
    } else {
      TruncNext(sb, st0, owner0, st, fs.st, inum, i, 0, Direct(inum, i));
    }
  }
}
