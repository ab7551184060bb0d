/** kernel/file.c, filewrite on an inode: a long write as a sequence of operations, each small
    enough for the log. */
module FileWrite {
  import opened Base
  import opened Blocks
  import opened Bitmap
  import opened Files
  import opened FsCode
  import opened FileTrunc
  import opened FileData

  /** One write after another is one write of both strings. */
  lemma SpliceTwice(f: seq<byte>, off: nat, a: seq<byte>, b: seq<byte>)
    requires off <= |f|
    ensures off + |a| <= |Splice(f, off, a)|
    ensures Splice(Splice(f, off, a), off + |a|, b) == Splice(f, off, a + b)
  {
  }

  /** What is written is what is read back. */
  lemma WriteThenRead(f: seq<byte>, off: nat, s: seq<byte>, room: nat)
    requires off <= |f| && off + |s| < 0x1_0000_0000 && |s| <= room
    ensures ReadSpec(Splice(f, off, s), off, |s|, room) == Bytes(s)
  {
    assert Splice(f, off, s)[off..off + |s|] == s;
  }

  /** Blocks of other inodes stay theirs. */
  lemma OthersOwn(sb: Super, st: State, owner: Owners, st': State, owner': Owners, inum: nat, b: nat)
    requires FsOk(sb, st, owner) && FsOk(sb, st', owner') && OthersKept(st, st', owner, inum) && b in owner &&
             owner[b].inum != inum
    ensures b in owner' && owner'[b] == owner[b]
  {
    hide Used, Val, Sane;
    DataStart(sb);
    OtherVal(sb, st, st', owner, inum, owner[b]);
  }

  lemma OthersChain(sb: Super, st0: State, owner0: Owners, st1: State, owner1: Owners, st2: State, inum: nat)
    requires FsOk(sb, st0, owner0) && FsOk(sb, st1, owner1)
    requires OthersKept(st0, st1, owner0, inum) && OthersKept(st1, st2, owner1, inum)
    ensures OthersKept(st0, st2, owner0, inum)
  {
    hide FsOk;
    forall b | b in owner0 && owner0[b].inum != inum && b < |st0.blocks| ensures st2.blocks[b] == st0.blocks[b] {
      OthersOwn(sb, st0, owner0, st1, owner1, inum, b);
    }
  }

  /** A chunk after the chunks before it. */
  lemma DoneChain(sb: Super, st0: State, owner0: Owners, st1: State, owner1: Owners, st2: State, inum: nat,
                  off: nat, src: seq<byte>, i: nat, n1: nat, r: nat, torn: nat)
    requires FsOk(sb, st0, owner0) && FsOk(sb, st1, owner1) && i + n1 <= |src|
    requires WriteDone(sb, st0, owner0, st1, inum, off, src, i, 0)
    requires WriteDone(sb, st1, owner1, st2, inum, off + i, src[i..i + n1], r, torn)
    ensures WriteDone(sb, st0, owner0, st2, inum, off, src, i + r, torn)
  {
    hide FsOk, ByteAt, NoHoles, OthersKept, Sane;
    OthersChain(sb, st0, owner0, st1, owner1, st2, inum);
  }

  lemma DoneStart(sb: Super, st: State, owner: Owners, inum: nat, off: nat, src: seq<byte>)
    requires FsOk(sb, st, owner) && inum < sb.ninodes && off <= st.inodes[inum].size
    ensures WriteDone(sb, st, owner, st, inum, off, src, 0, 0)
  {
    hide ByteAt, Val, Used;
  }

  lemma DoneFacts(sb: Super, st0: State, owner0: Owners, st: State, inum: nat, off: nat, src: seq<byte>, tot: nat,
                  torn: nat)
    requires WriteDone(sb, st0, owner0, st, inum, off, src, tot, torn)
    ensures ShapeOk(sb, st0) && ShapeOk(sb, st) && inum < sb.ninodes && off + tot <= st.inodes[inum].size <= 274432
    ensures NoHoles(sb, st0, inum) ==> NoHoles(sb, st, inum)
  {
    hide ByteAt, Val;
  }

  /** filewrite for FD_INODE. `n` is the int the caller passed. Every operation between begin_op
      and end_op logs at most MAXOPBLOCKS = 10 distinct blocks, if the file has no holes or the
      disk has at most four bitmap blocks. Returns
      n if all bytes are written and -1 otherwise; the offset moves over the bytes written either
      way. An offset beyond the end of the file is refused by writei. */
  method Filewrite(fs: Fs, inum: nat, src: seq<byte>, n: int, off: nat, good: nat, partial: nat)
    returns (ret: int, off': nat, ghost torn: nat, ghost ops: seq<set<nat>>)
    requires fs.Valid() && inum < fs.sb.ninodes && off < 0x1_0000_0000
    requires n < 0x8000_0000 && |src| == if n < 0 then 0 else n
    modifies fs
    ensures fs.Valid() && off <= off' && (ret == n || ret == -1) &&
            (ret == n && n >= 0 <==> off' == off + |src| && n >= 0)
    ensures off > old(fs.st).inodes[inum].size ==>
              off' == off && torn == 0 && fs.st.blocks == old(fs.st).blocks && fs.st.inodes == old(fs.st).inodes
    ensures off <= old(fs.st).inodes[inum].size ==>
              && WriteDone(fs.sb, old(fs.st), old(fs.owner), fs.st, inum, off, src, off' - off, torn)
              && (torn == 0 ==>
                   File(fs.sb, fs.st, inum) == Splice(File(fs.sb, old(fs.st), inum), off, src[..off' - off]))
    ensures forall op :: op in ops ==>
              |op| <= if NoHoles(fs.sb, old(fs.st), inum) || fs.sb.size <= 32768 then 10 else 11
    ensures good >= |src| ==> torn == 0
    ensures off <= old(fs.st).inodes[inum].size && off' < off + |src| ==>
              off + |src| > 274432 || Full(fs.sb, fs.st) || good < |src|
  {
    hide SlotsOwn, OwnersNamed, BitsOk, Sane, NoHoles, WriteDone, Logged, Full, Synced, Splice, ByteAt;
    if off > fs.st.inodes[inum].size {
      ret, off', torn, ops := RefusedWrite(fs, inum, src, n, off, good, partial);
      return;
    }
    ghost var sb, st0, owner0 := fs.sb, fs.st, fs.owner;
    DoneStart(sb, st0, owner0, inum, off, src);
    off', torn, ops := off, 0, [];
    var i := 0;
    var stop := false;
    while i < n && !stop
      invariant i <= |src| && fs.Valid() && off <= off'
      invariant WriteDone(sb, st0, owner0, fs.st, inum, off, src, off' - off, torn)
      invariant !stop ==> off' == off + i && torn == 0
      invariant stop ==> off' < off + |src| && i < n && (off + |src| > 274432 || Full(sb, fs.st) || good < |src|)
      invariant forall op :: op in ops ==> |op| <= if NoHoles(sb, st0, inum) || sb.size <= 32768 then 10 else 11
      invariant good >= |src| ==> torn == 0
      decreases |src| - i, !stop
    {
      var n1 := if n - i > 3072 then 3072 else n - i;
      ghost var st1, owner1 := fs.st, fs.owner;
      DoneFacts(sb, st0, owner0, st1, inum, off, src, i, 0);
      var r, torn1, op := OneOp(fs, inum, src[i..i + n1], off', if good > i then good - i else 0, partial);
      ops := ops + [op];
      if r >= 0 {
        DoneChain(sb, st0, owner0, st1, owner1, fs.st, inum, off, src, i, n1, r, torn1);
        torn := torn1;
        off' := off' + r;
      } else {
        SameButLog(sb, st0, owner0, st1, fs.st, inum, off, src, i);
      }
      if r != n1 {
        stop := true;
      } else {
        i := i + r;
      }
    }
    ret := if i == n then n else -1;
    if torn == 0 {
      StartSize(sb, st0, owner0, inum, off);
      WriteIsSplice(sb, st0, owner0, fs.st, inum, off, src, off' - off);
    }
  }

  /** The same loop when the offset lies beyond the end: the first writei refuses. */
  method RefusedWrite(fs: Fs, inum: nat, src: seq<byte>, n: int, off: nat, good: nat, partial: nat)
    returns (ret: int, off': nat, ghost torn: nat, ghost ops: seq<set<nat>>)
    requires fs.Valid() && inum < fs.sb.ninodes && off < 0x1_0000_0000
    requires n < 0x8000_0000 && |src| == (if n < 0 then 0 else n) && off > fs.st.inodes[inum].size
    modifies fs
    ensures fs.Valid() && off' == off && torn == 0 && ret == if n == 0 then 0 else -1
    ensures fs.st.blocks == old(fs.st).blocks && fs.st.inodes == old(fs.st).inodes &&
            forall op :: op in ops ==> |op| <= 10
  {
    hide SlotsOwn, OwnersNamed, BitsOk, Sane, NoHoles, WriteDone, Logged, Full, Synced, Splice, ByteAt;
    off', torn, ops := off, 0, [];
    if n > 0 {
      var n1 := if n > 3072 then 3072 else n;
      var r, torn1, op := OneOp(fs, inum, src[..n1], off, good, partial);
      ops := [op];
      assert r == -1;
    }
    ret := if n == 0 then 0 else -1;
  }

  lemma StartSize(sb: Super, st0: State, owner0: Owners, inum: nat, off: nat)
    requires FsOk(sb, st0, owner0) && inum < sb.ninodes
    ensures ShapeOk(sb, st0)
  {
  }

  /** Nothing but the list of logged blocks differs. */
  lemma SameButLog(sb: Super, st0: State, owner0: Owners, st1: State, st2: State, inum: nat, off: nat, src: seq<byte>,
                   i: nat)
    requires WriteDone(sb, st0, owner0, st1, inum, off, src, i, 0) && st2.blocks == st1.blocks &&
             st2.inodes == st1.inodes
    ensures WriteDone(sb, st0, owner0, st2, inum, off, src, i, 0)
  {
    hide Sane, Word, ByteAt;
    ResizeVals(sb, st1, st2, inum);
    forall p: nat | p < 274432 ensures ByteAt(sb, st2, inum, p) == ByteAt(sb, st1, inum, p) {
      ResizeBytes(sb, st1, st2, inum, p);
    }
  }

  lemma ClearLog(sb: Super, st: State, owner: Owners, inum: nat)
    requires FsOk(sb, st, owner) && inum < sb.ninodes
    ensures FsOk(sb, st.(logged := {}, writes := []), owner)
    ensures NoHoles(sb, st, inum) ==> NoHoles(sb, st.(logged := {}, writes := []), inum)
  {
    hide Sane, Word, MapBit;
    assert forall s :: SlotOk(sb.ninodes, s) ==> Val(sb, st.(logged := {}, writes := []), s) == Val(sb, st, s);
  }

  lemma DoneFromClear(sb: Super, st: State, owner: Owners, st': State, inum: nat, off: nat, src: seq<byte>, tot: nat,
                      torn: nat)
    requires ShapeOk(sb, st) && WriteDone(sb, st.(logged := {}, writes := []), owner, st', inum, off, src, tot, torn)
    ensures WriteDone(sb, st, owner, st', inum, off, src, tot, torn)
  {
    hide Sane, Word;
    assert forall s :: SlotOk(sb.ninodes, s) ==> Val(sb, st.(logged := {}, writes := []), s) == Val(sb, st, s);
  }

  lemma StopCause(sb: Super, st: State, inum: nat, off: nat, n: nat, tot: nat, good: nat, partial: nat, torn: nat)
    requires ShapeOk(sb, st) && inum < sb.ninodes && off + n <= 274432
    requires StopsAt(sb, st, inum, off, n, tot, good, partial, torn)
    ensures Full(sb, st) || good < n
    ensures torn > 0 ==> good < n
  {
    hide Val, Sane, Full;
  }

  /** begin_op, writei, end_op. */
  method OneOp(fs: Fs, inum: nat, src: seq<byte>, off: nat, good: nat, partial: nat)
    returns (r: int, ghost torn: nat, ghost op: set<nat>)
    requires fs.Valid() && inum < fs.sb.ninodes && off < 0x1_0000_0000 && |src| <= 3072
    modifies fs
    ensures fs.Valid() && -1 <= r <= |src| && op == fs.st.logged
    ensures |op| <= if NoHoles(fs.sb, old(fs.st), inum) || fs.sb.size <= 32768 then 10 else 11
    ensures off > old(fs.st).inodes[inum].size ==> r == -1 && op == {}
    ensures r < 0 ==> fs.st.blocks == old(fs.st).blocks && fs.st.inodes == old(fs.st).inodes && torn == 0
    ensures r < 0 && off <= old(fs.st).inodes[inum].size ==> |src| > 0
    ensures r >= 0 ==> WriteDone(fs.sb, old(fs.st), old(fs.owner), fs.st, inum, off, src, r, torn)
    ensures torn > 0 ==> 0 <= r < |src| && good < |src|
    ensures r < |src| ==>
              off > old(fs.st).inodes[inum].size || off + |src| > 274432 || Full(fs.sb, fs.st) || good < |src|
  {
    hide SlotsOwn, OwnersNamed, BitsOk, NoHoles, WriteDone, Logged, Full, Synced, Splice, ByteAt, Sane, StopsAt,
         SlotsKept;
    ghost var sb, st0, owner0 := fs.sb, fs.st, fs.owner;
    ClearLog(sb, st0, owner0, inum);
    fs.st := fs.st.(logged := {}, writes := []);
    ghost var clean;
    r, torn, clean := Writei(fs, inum, src, off, good, partial);
    op := fs.st.logged;
    assert op - {} == op;
    if 0 <= r < |src| { StopCause(sb, fs.st, inum, off, |src|, r, good, partial, torn); }
    if r >= 0 {
      DoneFromClear(sb, st0, owner0, fs.st, inum, off, src, r, torn);
    }
  }
}
