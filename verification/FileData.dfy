/** kernel/fs.c, readi and writei: a file read and written as a string of bytes. */
module FileData {
  import opened Base
  import opened Blocks
  import opened Bitmap
  import opened Files
  import opened FsCode
  import opened FileTrunc

  /** Positions in block `bn` of a file. */
  lemma InBlock(bn: nat, p: nat)
    ensures p / 1024 == bn <==> bn * 1024 <= p < bn * 1024 + 1024
    ensures p / 1024 == bn ==> p % 1024 == p - bn * 1024
  {
  }

  // ------------------------------------------------------------ readi

  /** The part of a file that a read asks for. */
  ghost function Part(file: seq<byte>, off: nat, n: nat): seq<byte> {
    if off > |file| || off + n >= 0x1_0000_0000 then [] else file[off..off + Min(n, |file| - off)]
  }

  /** Panicked: bmap was to fill a hole outside any operation, so log_write panics. */
  datatype ReadResult = Bytes(s: seq<byte>) | Undelivered | Panicked

  /** What a read of a file without holes returns, if the caller has room for `room` bytes. */
  ghost function ReadSpec(file: seq<byte>, off: nat, n: nat, room: nat): ReadResult {
    if |Part(file, off, n)| <= room then Bytes(Part(file, off, n)) else Undelivered
  }

  /** The bytes of one block are bytes of the file. */
  lemma ChunkBytes(sb: Super, st: State, inum: nat, bn: nat, r: nat, m: nat)
    requires ShapeOk(sb, st) && inum < sb.ninodes && bn < MAXFILE && r + m <= 1024 &&
             bn * 1024 + r + m <= st.inodes[inum].size
    requires 0 < Val(sb, st, SlotFor(inum, bn)) < |st.blocks|
    ensures st.blocks[Val(sb, st, SlotFor(inum, bn))][r..r + m] == File(sb, st, inum)[bn * 1024 + r..bn * 1024 + r + m]
  {
    hide Val, Sane;
    var f := File(sb, st, inum);
    var bk := st.blocks[Val(sb, st, SlotFor(inum, bn))];
    var part, fpart := bk[r..r + m], f[bn * 1024 + r..bn * 1024 + r + m];
    forall t: nat | t < m ensures part[t] == fpart[t] {
      InBlock(bn, bn * 1024 + r + t);
      assert ByteAt(sb, st, inum, bn * 1024 + r + t) == bk[r + t];
    }
  }

  /** Byte p of a file lies in a hole. */
  ghost predicate Missing(sb: Super, st: State, inum: nat, p: nat)
    requires ShapeOk(sb, st) && inum < sb.ninodes && p < 274432
  {
    Val(sb, st, SlotFor(inum, p / 1024)) == 0
  }

  /** A read of `want` bytes comes to a hole before its copy out fails. */
  ghost predicate HoleInReach(sb: Super, st: State, inum: nat, off: nat, want: nat, room: nat)
    requires ShapeOk(sb, st) && inum < sb.ninodes
  {
    exists p: nat :: off <= p < off + want && p < 274432 && Missing(sb, st, inum, p) && p / 1024 * 1024 <= off + room
  }

  /** No hole in the first `tot` bytes. */
  ghost predicate Solid(sb: Super, st: State, inum: nat, off: nat, tot: nat)
    requires ShapeOk(sb, st) && inum < sb.ninodes
  {
    forall p: nat :: off <= p < off + tot && p < 274432 ==> !Missing(sb, st, inum, p)
  }

  lemma SolidNext(sb: Super, st: State, inum: nat, off: nat, tot: nat, m: nat)
    requires ShapeOk(sb, st) && inum < sb.ninodes && off + tot < 274432 && m <= 1024 - (off + tot) % 1024
    requires Solid(sb, st, inum, off, tot) && Val(sb, st, SlotFor(inum, (off + tot) / 1024)) != 0
    ensures Solid(sb, st, inum, off, tot + m)
  {
    hide Val;
    forall p: nat | off <= p < off + tot + m && p < 274432 ensures !Missing(sb, st, inum, p) {
      if p >= off + tot { assert p / 1024 == (off + tot) / 1024; }
    }
  }

  /** A solid part that ends with the read, or with a block that cannot be delivered, hides no hole. */
  lemma SolidToTheEnd(sb: Super, st: State, inum: nat, off: nat, tot: nat, want: nat, room: nat)
    requires ShapeOk(sb, st) && inum < sb.ninodes && Solid(sb, st, inum, off, tot)
    requires tot >= want || (tot > room && (off + tot) % 1024 == 0)
    ensures !HoleInReach(sb, st, inum, off, want, room)
  {
    hide Val;
    forall p: nat | off <= p < off + want && p < 274432 && Missing(sb, st, inum, p)
      ensures p / 1024 * 1024 > off + room
    {
      assert p >= off + tot && (off + tot) % 1024 == 0;
    }
  }

  /** The block at hand is such a hole. */
  lemma HoleHere(sb: Super, st: State, inum: nat, off: nat, tot: nat, want: nat, room: nat)
    requires ShapeOk(sb, st) && inum < sb.ninodes && off + tot < 274432 && tot < want && tot <= room
    requires Val(sb, st, SlotFor(inum, (off + tot) / 1024)) == 0
    ensures HoleInReach(sb, st, inum, off, want, room)
  {
    hide Val;
    assert Missing(sb, st, inum, off + tot);
  }

  /** readi. `room` is how many bytes either_copyout can deliver before it fails, and `inOp` says
      whether an operation is outstanding. A file without holes is read and nothing changes. A
      hole is filled with a zero block, which changes no byte of any file; or, outside an
      operation, log_write panics; or the disk is full and the read ends there. It panics if and
      only if it runs outside an operation, a block is free, and a hole is reached. */
  method Readi(fs: Fs, inum: nat, off: nat, n: nat, room: nat, inOp: bool) returns (r: ReadResult)
    requires fs.Valid() && inum < fs.sb.ninodes && off < 0x1_0000_0000 && n < 0x1_0000_0000
    modifies fs
    ensures fs.Valid() && ChunkStep(fs.sb, old(fs.st), old(fs.owner), fs.st, fs.owner, inum, 0, []) &&
            Logged(old(fs.st), fs.st)
    ensures NoHoles(fs.sb, old(fs.st), inum) ==>
              fs.st == old(fs.st) && fs.owner == old(fs.owner) &&
                r == ReadSpec(File(fs.sb, old(fs.st), inum), off, n, room)
    ensures r.Bytes? ==> r.s <= Part(File(fs.sb, old(fs.st), inum), off, n)
                         && (r.s == Part(File(fs.sb, old(fs.st), inum), off, n) || Full(fs.sb, fs.st))
    ensures r.Undelivered? ==> |Part(File(fs.sb, old(fs.st), inum), off, n)| > room
    ensures r.Panicked? <==>
              && !inOp && !Full(fs.sb, old(fs.st))
              && HoleInReach(fs.sb, old(fs.st), inum, off, |Part(File(fs.sb, old(fs.st), inum), off, n)|, room)
    ensures !inOp && !r.Panicked? ==> fs.st == old(fs.st)
  {
    hide Used, Val, Sane, SlotsOwn, OwnersNamed, BitsOk, NoHoles, ChunkStep, Logged, Full, ByteAt, Part, HoleInReach;
    ghost var st := fs.st;
    ghost var file := File(fs.sb, st, inum);
    PartIs(file, off, n);
    var size := fs.st.inodes[inum].size;
    if off > size || (off + n) % 0x1_0000_0000 < off {
      NothingRead(fs.sb, st, inum, off, room);
      ChunkNone(fs.sb, st, fs.owner, inum);
      LoggedSame(st, st);
      return Bytes([]);
    }
    var want := if off + n > size then size - off else n;
    r := ReadLoop(fs, inum, off, want, room, inOp);
  }

  /** readi's loop, over a range within the file. */
  method ReadLoop(fs: Fs, inum: nat, off: nat, want: nat, room: nat, inOp: bool) returns (r: ReadResult)
    requires fs.Valid() && inum < fs.sb.ninodes && off + want <= fs.st.inodes[inum].size
    modifies fs
    ensures fs.Valid() && ChunkStep(fs.sb, old(fs.st), old(fs.owner), fs.st, fs.owner, inum, 0, []) &&
            Logged(old(fs.st), fs.st)
    ensures NoHoles(fs.sb, old(fs.st), inum) ==>
              && fs.st == old(fs.st) && fs.owner == old(fs.owner)
              && r == if want <= room then Bytes(File(fs.sb, old(fs.st), inum)[off..off + want]) else Undelivered
    ensures r.Bytes? ==>
              && r.s <= File(fs.sb, old(fs.st), inum)[off..off + want]
              && (r.s == File(fs.sb, old(fs.st), inum)[off..off + want] || Full(fs.sb, fs.st))
    ensures r.Undelivered? ==> want > room
    ensures r.Panicked? <==>
              !inOp && !Full(fs.sb, old(fs.st)) && HoleInReach(fs.sb, old(fs.st), inum, off, want, room)
    ensures !inOp && !r.Panicked? ==> fs.st == old(fs.st)
  {
    hide Used, Val, Sane, SlotsOwn, OwnersNamed, BitsOk, NoHoles, ChunkStep, Logged, Full, ByteAt, Solid, HoleInReach,
         File;
    ghost var sb, st, owner := fs.sb, fs.st, fs.owner;
    ghost var file := File(sb, st, inum);
    NothingRead(sb, st, inum, off, room);
    ChunkNone(sb, st, owner, inum);
    LoggedSame(st, st);
    var buf: seq<byte> := [];
    var tot := 0;
    while tot < want
      invariant fs.Valid() && tot <= want && tot <= room && off + want <= |file| == fs.st.inodes[inum].size
      invariant ChunkStep(sb, st, owner, fs.st, fs.owner, inum, 0, []) && Logged(st, fs.st)
      invariant NoHoles(sb, st, inum) || !inOp ==> fs.st == st && fs.owner == owner
      invariant buf == file[off..off + tot] && (!inOp ==> Solid(sb, st, inum, off, tot))
    {
      ghost var st1, owner1 := fs.st, fs.owner;
      SameFile(sb, st, owner, fs.st, fs.owner, inum);
      var end, piece := ReadRound(fs, inum, off + tot, want - tot, inOp);
      ChunkChain(sb, st, owner, st1, owner1, fs.st, fs.owner, inum, 0, []);
      LoggedChain(st, st1, fs.st);
      SizeKept(sb, st, owner, fs.st, fs.owner, inum);
      SizeLimit(sb, st, inum);
      if end == Halted {
        HoleHere(sb, st, inum, off, tot, want, room);
        return Panicked;
      }
      if end == NoBlock {
        PrefixOf(file, off, tot, want);
        return Bytes(buf);
      }
      if !inOp { SolidNext(sb, st, inum, off, tot, |piece|); }
      if tot + |piece| > room {
        if !inOp { SolidToTheEnd(sb, st, inum, off, tot + |piece|, want, room); }
        return Undelivered;
      }
      Join(file, off, tot, piece);
      buf := buf + piece;
      tot := tot + |piece|;
    }
    if !inOp { SolidToTheEnd(sb, st, inum, off, tot, want, room); }
    r := Bytes(buf);
  }

  lemma SizeLimit(sb: Super, st: State, inum: nat)
    requires ShapeOk(sb, st) && inum < sb.ninodes
    ensures |File(sb, st, inum)| == st.inodes[inum].size <= 274432
  {
    hide ByteAt;
  }

  lemma NothingRead(sb: Super, st: State, inum: nat, off: nat, room: nat)
    requires ShapeOk(sb, st) && inum < sb.ninodes
    ensures Solid(sb, st, inum, off, 0) && !HoleInReach(sb, st, inum, off, 0, room)
  {
  }

  lemma PartIs(file: seq<byte>, off: nat, n: nat)
    requires off < 0x1_0000_0000 && n < 0x1_0000_0000
    ensures off > |file| || (off + n) % 0x1_0000_0000 < off ==> Part(file, off, n) == []
    ensures off <= |file| && !((off + n) % 0x1_0000_0000 < off) ==>
              Part(file, off, n) == file[off..off + if off + n > |file| then |file| - off else n]
  {
  }

  lemma PrefixOf(file: seq<byte>, off: nat, tot: nat, want: nat)
    requires tot <= want && off + want <= |file|
    ensures file[off..off + tot] <= file[off..off + want]
  {
  }

  lemma Join(file: seq<byte>, off: nat, tot: nat, piece: seq<byte>)
    requires off + tot + |piece| <= |file| && piece == file[off + tot..off + tot + |piece|]
    ensures file[off..off + tot] + piece == file[off..off + tot + |piece|]
  {
  }

  /** How a round of readi ends: with bytes, without a block on a full disk, or in a panic. */
  datatype RoundEnd = Piece | NoBlock | Halted

  /** One round of readi's loop: the rest of one block, or what is left to read. */
  method ReadRound(fs: Fs, inum: nat, pos: nat, left: nat, inOp: bool) returns (end: RoundEnd, piece: seq<byte>)
    requires fs.Valid() && inum < fs.sb.ninodes && left > 0 && pos + left <= fs.st.inodes[inum].size
    modifies fs
    ensures fs.Valid() && ChunkStep(fs.sb, old(fs.st), old(fs.owner), fs.st, fs.owner, inum, 0, []) &&
            Logged(old(fs.st), fs.st)
    ensures NoHoles(fs.sb, old(fs.st), inum) ==> end == Piece && fs.st == old(fs.st) && fs.owner == old(fs.owner)
    ensures end == Halted <==>
              !inOp && old(Val(fs.sb, fs.st, SlotFor(inum, pos / 1024))) == 0 && !old(Full(fs.sb, fs.st))
    ensures !inOp && end == Piece ==> old(Val(fs.sb, fs.st, SlotFor(inum, pos / 1024))) != 0
    ensures !inOp && end != Halted ==> fs.st == old(fs.st) && fs.owner == old(fs.owner)
    ensures end == NoBlock ==> Full(fs.sb, fs.st)
    ensures end == Piece ==> |piece| == Min(left, 1024 - pos % 1024) > 0
    ensures end == Piece ==> piece == File(fs.sb, old(fs.st), inum)[pos..pos + |piece|]
  {
    hide Used, Val, Sane, SlotsOwn, OwnersNamed, BitsOk, MapStep, NoHoles, ChunkStep, Logged, Full, ByteAt;
    ghost var sb, st, owner := fs.sb, fs.st, fs.owner;
    var bn := pos / 1024;
    var before := |fs.st.writes|;
    InLimit(sb, st, inum, bn, pos);
    Mapped(sb, st, owner, inum, bn, pos);
    piece := [];
    var addr := fs.Bmap(inum, bn);
    MapKeepsBytes(sb, st, owner, fs.st, fs.owner, inum, bn, addr);
    MapFacts(sb, st, owner, fs.st, fs.owner, inum, bn, addr);
    SizeKept(sb, st, owner, fs.st, fs.owner, inum);
    SameFile(sb, st, owner, fs.st, fs.owner, inum);
    if !inOp && |fs.st.writes| > before {
      return Halted, piece;
    }
    if addr == 0 {
      return NoBlock, piece;
    }
    MappedBlock(sb, fs.st, fs.owner, inum, bn, addr);
    var at := pos % 1024;
    var m := Min(left, 1024 - at);
    ChunkBytes(sb, fs.st, inum, bn, at, m);
    piece := fs.st.blocks[addr][at..at + m];
    end := Piece;
  }

  lemma InLimit(sb: Super, st: State, inum: nat, bn: nat, p: nat)
    requires ShapeOk(sb, st) && inum < sb.ninodes && p < st.inodes[inum].size && bn == p / 1024
    ensures bn < MAXFILE
  {
  }

  lemma ChunkNone(sb: Super, st: State, owner: Owners, inum: nat)
    requires FsOk(sb, st, owner) && inum < sb.ninodes
    ensures ChunkStep(sb, st, owner, st, owner, inum, 0, [])
  {
    hide Used, Val, ByteAt;
  }

  lemma SizeKept(sb: Super, st: State, owner: Owners, st': State, owner': Owners, inum: nat)
    requires ChunkStep(sb, st, owner, st', owner', inum, 0, [])
    ensures inum < sb.ninodes && ShapeOk(sb, st) && ShapeOk(sb, st') && st'.inodes[inum].size == st.inodes[inum].size
  {
    hide ByteAt, Val;
  }

  /** No byte replaced, no byte changed. */
  lemma SameFile(sb: Super, st: State, owner: Owners, st': State, owner': Owners, inum: nat)
    requires ChunkStep(sb, st, owner, st', owner', inum, 0, [])
    ensures inum < sb.ninodes && ShapeOk(sb, st) && ShapeOk(sb, st') && File(sb, st', inum) == File(sb, st, inum)
  {
    hide ByteAt, Val, OthersKept, HeadKept;
  }

  /** Without holes, a position below the size lies in an allocated block. */
  lemma Mapped(sb: Super, st: State, owner: Owners, inum: nat, bn: nat, p: nat)
    requires FsOk(sb, st, owner) && inum < sb.ninodes && p < st.inodes[inum].size && bn == p / 1024 && bn < MAXFILE
    ensures NoHoles(sb, st, inum) ==> Val(sb, st, SlotFor(inum, bn)) != 0
  {
    hide Used, Val, Sane;
    InBlock(bn, p);
  }

  // ------------------------------------------------------------ one block of writei

  /** memmove into a buffer. */
  function Patch(bk: Block, at: nat, s: seq<byte>): Block
    requires at + |s| <= 1024
  {
    bk[..at] + s + bk[at + |s|..]
  }

  /** What one round of writei does: bytes from `pos` on are replaced, nothing else is. */
  ghost predicate ChunkStep(sb: Super, st: State, owner: Owners, st': State, owner': Owners, inum: nat, pos: nat,
                            s: seq<byte>) {
    && ShapeOk(sb, st) && ShapeOk(sb, st') && inum < sb.ninodes && pos + |s| <= 274432
    && st'.inodes[inum].size == st.inodes[inum].size
    && (forall p: nat :: p < 274432 ==>
          ByteAt(sb, st', inum, p) == if pos <= p < pos + |s| then s[p - pos] else ByteAt(sb, st, inum, p))
    && (forall i: nat :: i < MAXFILE && Val(sb, st, SlotFor(inum, i)) != 0 ==> Val(sb, st', SlotFor(inum, i)) != 0)
    && OthersKept(st, st', owner, inum) && HeadKept(sb, st, st', sb.size)
    && (forall b :: b in owner ==> b in owner' && owner'[b] == owner[b])
  }

  /** bmap changes no byte of the file: a block it adds is zero, like the hole it fills. */
  lemma MapKeepsBytes(sb: Super, st: State, owner: Owners, st': State, owner': Owners, inum: nat, bn: nat, addr: nat)
    requires FsOk(sb, st, owner) && FsOk(sb, st', owner') && MapStep(sb, st, owner, st', owner', inum, bn, addr)
    ensures ChunkStep(sb, st, owner, st', owner', inum, 0, [])
  {
    hide Val, Used, Sane, ZeroBlock, Logged;
    forall p: nat | p < 274432 ensures ByteAt(sb, st', inum, p) == ByteAt(sb, st, inum, p) {
      MapKeepsByte(sb, st, owner, st', owner', inum, bn, addr, p);
    }
    forall i: nat | i < MAXFILE && Val(sb, st, SlotFor(inum, i)) != 0 ensures Val(sb, st', SlotFor(inum, i)) != 0 {
    }
  }

  lemma MapKeepsByte(sb: Super, st: State, owner: Owners, st': State, owner': Owners, inum: nat, bn: nat, addr: nat,
                     p: nat)
    requires FsOk(sb, st, owner) && FsOk(sb, st', owner') && MapStep(sb, st, owner, st', owner', inum, bn, addr) &&
             p < 274432
    ensures ByteAt(sb, st', inum, p) == ByteAt(sb, st, inum, p)
  {
    hide Val, Used, Sane, Logged;
    var i := p / 1024;
    var b := Val(sb, st, SlotFor(inum, i));
    if b != 0 {
      OwnedRange(sb, st, owner, SlotFor(inum, i));
    } else if i == bn {
      assert addr != 0 ==> st'.blocks[addr][p % 1024] == 0;
    }
  }

  /** Replacing bytes in a data block of the file. */
  lemma PatchData(sb: Super, st: State, owner: Owners, st': State, inum: nat, bn: nat, at: nat, s: seq<byte>, addr: nat)
    requires FsOk(sb, st, owner) && ShapeOk(sb, st') && inum < sb.ninodes && bn < MAXFILE && at + |s| <= 1024
    requires addr == Val(sb, st, SlotFor(inum, bn)) != 0 && addr < |st.blocks|
    requires st'.inodes == st.inodes && st'.blocks == st.blocks[addr := Patch(st.blocks[addr], at, s)]
    ensures FsOk(sb, st', owner) && ChunkStep(sb, st, owner, st', owner, inum, bn * 1024 + at, s)
    ensures forall t :: SlotOk(sb.ninodes, t) ==> Val(sb, st', t) == Val(sb, st, t)
  {
    hide Used, Sane, Word, Patch;
    OwnedRange(sb, st, owner, SlotFor(inum, bn));
    forall t | SlotOk(sb.ninodes, t) ensures Val(sb, st', t) == Val(sb, st, t) {
      if t.Entry? && Val(sb, st, Indirect(t.inum)) != 0 { OwnedRange(sb, st, owner, Indirect(t.inum)); }
    }
    PatchOk(sb, st, owner, st', addr);
    PatchBytes(sb, st, owner, st', inum, bn, at, s, addr);
  }

  lemma PatchOk(sb: Super, st: State, owner: Owners, st': State, addr: nat)
    requires FsOk(sb, st, owner) && ShapeOk(sb, st') && sb.datastart <= addr < sb.size
    requires forall t :: SlotOk(sb.ninodes, t) ==> Val(sb, st', t) == Val(sb, st, t)
    requires forall c: nat :: c < sb.size && c != addr ==> st'.blocks[c] == st.blocks[c]
    ensures FsOk(sb, st', owner)
  {
    hide Used, Val, Sane;
    DataStart(sb);
    UsedFrame(sb, st.blocks, st'.blocks);
  }

  lemma PatchBytes(sb: Super, st: State, owner: Owners, st': State, inum: nat, bn: nat, at: nat, s: seq<byte>,
                   addr: nat)
    requires FsOk(sb, st, owner) && ShapeOk(sb, st') && inum < sb.ninodes && bn < MAXFILE && at + |s| <= 1024
    requires addr == Val(sb, st, SlotFor(inum, bn)) != 0 && addr < |st.blocks|
    requires st'.inodes == st.inodes && st'.blocks == st.blocks[addr := Patch(st.blocks[addr], at, s)]
    requires forall t :: SlotOk(sb.ninodes, t) ==> Val(sb, st', t) == Val(sb, st, t)
    ensures ChunkStep(sb, st, owner, st', owner, inum, bn * 1024 + at, s)
  {
    hide Used, Sane, Val;
    DataStart(sb);
    OwnedRange(sb, st, owner, SlotFor(inum, bn));
    var pos := bn * 1024 + at;
    forall p: nat | p < 274432
      ensures ByteAt(sb, st', inum, p) == if pos <= p < pos + |s| then s[p - pos] else ByteAt(sb, st, inum, p)
    {
      InBlock(bn, p);
      var i := p / 1024;
      if i != bn && Val(sb, st, SlotFor(inum, i)) != 0 { OwnedRange(sb, st, owner, SlotFor(inum, i)); }
    }
  }

  lemma ChunkChain(sb: Super, st: State, owner: Owners, st1: State, owner1: Owners, st2: State, owner2: Owners,
                   inum: nat, pos: nat, s: seq<byte>)
    requires ChunkStep(sb, st, owner, st1, owner1, inum, 0, []) && ChunkStep(sb, st1, owner1, st2, owner2, inum, pos, s)
    ensures ChunkStep(sb, st, owner, st2, owner2, inum, pos, s)
  {
    hide Val, Sane, ByteAt;
  }

  // ------------------------------------------------------------ the blocks a write logs

  /** After `k` rounds of which `taken` took a new block: the rounds have logged `d` data blocks,
      `m` bitmap blocks and the indirect block. */
  ghost predicate Budget(sb: Super, st0: State, st: State, inum: nat, k: nat, taken: nat, d: set<nat>, m: set<nat>) {
    && ShapeOk(sb, st0) && ShapeOk(sb, st) && inum < sb.ninodes
    && st.logged <= st0.logged + d + m + One(Val(sb, st, Indirect(inum)))
    && |d| <= k
    && (forall x :: x in m ==> sb.bmapstart <= x < sb.bmapstart + (sb.size + 8191) / 8192)
    && |m| <= taken + (if Val(sb, st, Indirect(inum)) != Val(sb, st0, Indirect(inum)) then 1 else 0)
    && (Val(sb, st, Indirect(inum)) != Val(sb, st0, Indirect(inum)) ==> Val(sb, st0, Indirect(inum)) == 0)
  }

  lemma BudgetStart(sb: Super, st: State, inum: nat)
    requires ShapeOk(sb, st) && inum < sb.ninodes
    ensures Budget(sb, st, st, inum, 0, 0, {}, {})
  {
  }

  /** One more bmap, with the data block logged or not. */
  lemma BudgetNext(sb: Super, st0: State, st: State, owner: Owners, st1: State, owner1: Owners, st2: State, inum: nat,
                   bn: nat, addr: nat, k: nat, taken: nat, d: set<nat>, m: set<nat>)
    requires Budget(sb, st0, st, inum, k, taken, d, m) && MapStep(sb, st, owner, st1, owner1, inum, bn, addr)
    requires FsOk(sb, st1, owner1)
    requires ShapeOk(sb, st2) && st1.logged <= st2.logged <= st1.logged + One(addr)
    requires Val(sb, st2, Indirect(inum)) == Val(sb, st1, Indirect(inum))
    ensures Budget(sb, st0, st2, inum, k + 1, if addr != Val(sb, st, SlotFor(inum, bn)) then taken + 1 else taken,
                   d + One(addr), m + NewMaps(sb, st, st1, inum, bn))
  {
    hide Val, Sane, Bblock, MapStep, NewMaps, ShapeOk, SlotsOwn, OwnersNamed, BitsOk;
    MapLogs(sb, st, owner, st1, owner1, inum, bn, addr);
    MapsInRange(sb, st, owner, st1, owner1, inum, bn, addr);
    var n := NewMaps(sb, st, st1, inum, bn);
    assert |d + One(addr)| <= |d| + 1;
    assert |m + n| <= |m| + |n|;
  }

  lemma MapLogs(sb: Super, st: State, owner: Owners, st1: State, owner1: Owners, inum: nat, bn: nat, addr: nat)
    requires MapStep(sb, st, owner, st1, owner1, inum, bn, addr)
    ensures ShapeOk(sb, st) && ShapeOk(sb, st1) && inum < sb.ninodes && bn < MAXFILE
    ensures var ind, ind' := Val(sb, st, Indirect(inum)), Val(sb, st1, Indirect(inum));
            && (ind' != ind ==> ind == 0) &&
               st1.logged <= st.logged + One(addr) + One(ind') + NewMaps(sb, st, st1, inum, bn)
            && |NewMaps(sb, st, st1, inum, bn)| <= (if ind' != ind then 1 else 0) +
               if addr != Val(sb, st, SlotFor(inum, bn)) then 1 else 0
  {
    hide Val, Sane, Bblock, OthersKept, DataKept, Logged, Full;
  }

  lemma MapsInRange(sb: Super, st: State, owner: Owners, st1: State, owner1: Owners, inum: nat, bn: nat, addr: nat)
    requires MapStep(sb, st, owner, st1, owner1, inum, bn, addr) && FsOk(sb, st1, owner1)
    ensures ShapeOk(sb, st) && ShapeOk(sb, st1) && inum < sb.ninodes && bn < MAXFILE
    ensures forall x :: x in NewMaps(sb, st, st1, inum, bn) ==>
              sb.bmapstart <= x < sb.bmapstart + (sb.size + 8191) / 8192
  {
    hide Val, Used, Sane, Logged, OthersKept, DataKept, Full;
    var ind, data := Val(sb, st1, Indirect(inum)), Val(sb, st1, SlotFor(inum, bn));
    if ind != 0 {
      OwnedRange(sb, st1, owner1, Indirect(inum));
    }
    if data != 0 {
      OwnedRange(sb, st1, owner1, SlotFor(inum, bn));
    }
    DataStart(sb);
    InMap(sb, ind);
    InMap(sb, data);
  }

  lemma InMap(sb: Super, b: nat)
    ensures b < sb.size ==> sb.bmapstart <= Bblock(sb, b) < sb.bmapstart + (sb.size + 8191) / 8192
  {
  }

  lemma {:induction false} FewMaps(m: set<nat>, lo: nat, n: nat)
    requires forall x :: x in m ==> lo <= x < lo + n
    ensures |m| <= n
    decreases n
  {
    if n > 0 {
      FewMaps(m - {lo + n - 1}, lo, n - 1);
      assert m <= (m - {lo + n - 1}) + {lo + n - 1};
      SubsetSize(m, (m - {lo + n - 1}) + {lo + n - 1});
    } else {
      assert m == {};
    }
  }

  /** With at most three blocks' worth of bytes there are at most four rounds, and three if the
      first byte is aligned. Only if all four rounds take a new block and there are five bitmap
      blocks is there one block too many. */
  lemma BudgetBound(sb: Super, st0: State, st: State, st': State, inum: nat, k: nat, taken: nat, d: set<nat>,
                    m: set<nat>, aligned: bool)
    requires Budget(sb, st0, st, inum, k, taken, d, m) && MetaWrite(sb, st, st', sb.inodestart + inum)
    requires k <= 4 && taken <= k && (aligned ==> k <= 3)
    ensures |st'.logged - st0.logged| <= if aligned || taken <= 3 || sb.size <= 32768 then 10 else 11
  {
    hide Val, Sane, Logged;
    var i := One(Val(sb, st, Indirect(inum)));
    var all := d + m + i + {sb.inodestart + inum};
    assert st'.logged - st0.logged <= all;
    if sb.size <= 32768 { FewMaps(m, sb.bmapstart, 4); }
    assert |d + m| <= |d| + |m|;
    assert |d + m + i| <= |d + m| + 1;
    assert |all| <= |d + m + i| + 1;
    SubsetSize(st'.logged - st0.logged, all);
  }

  // ------------------------------------------------------------ writei

  /** writei's loop after `tot` bytes. */
  ghost predicate Written(sb: Super, st0: State, owner0: Owners, st: State, owner: Owners, inum: nat, off: nat,
                          src: seq<byte>, tot: nat) {
    && tot <= |src| && ChunkStep(sb, st0, owner0, st, owner, inum, off, src[..tot])
    && (tot > 0 ==>
          forall i: nat :: i < MAXFILE && off < i * 1024 + 1024 && i * 1024 < off + tot ==>
              Val(sb, st, SlotFor(inum, i)) != 0)
  }

  lemma WrittenStart(sb: Super, st: State, owner: Owners, inum: nat, off: nat, src: seq<byte>)
    requires FsOk(sb, st, owner) && inum < sb.ninodes && off <= 274432
    ensures Written(sb, st, owner, st, owner, inum, off, src, 0)
  {
    hide Val, ByteAt, Used, Logged;
  }

  lemma WrittenNext(sb: Super, st0: State, owner0: Owners, st: State, owner: Owners, st2: State, owner2: Owners,
                    inum: nat, off: nat, src: seq<byte>, tot: nat, m: nat, bn: nat)
    requires Written(sb, st0, owner0, st, owner, inum, off, src, tot) && tot + m <= |src| && off + |src| <= 274432
    requires ChunkStep(sb, st, owner, st2, owner2, inum, off + tot, src[tot..tot + m])
    requires bn < MAXFILE && bn * 1024 <= off + tot && off + tot + m <= bn * 1024 + 1024 &&
             (m > 0 ==> Val(sb, st2, SlotFor(inum, bn)) != 0)
    ensures Written(sb, st0, owner0, st2, owner2, inum, off, src, tot + m)
  {
    hide Val, ByteAt, Sane;
    assert src[..tot] + src[tot..tot + m] == src[..tot + m];
    forall i: nat | i < MAXFILE && off < i * 1024 + 1024 && i * 1024 < off + tot + m && tot + m > 0
      ensures Val(sb, st2, SlotFor(inum, i)) != 0
    {
      if !(i * 1024 < off + tot) || tot == 0 { assert i == bn; }
    }
  }

  datatype Outcome = Copied | DiskFull | CopyFailed

  /** No block has been taken for positions outside the n bytes from `off` on. */
  ghost predicate SlotsKept(sb: Super, st: State, st': State, inum: nat, off: nat, n: nat) {
    && ShapeOk(sb, st) && ShapeOk(sb, st') && inum < sb.ninodes
    && forall i: nat :: i < MAXFILE && (i * 1024 + 1024 <= off || off + n <= i * 1024) ==>
         Val(sb, st', SlotFor(inum, i)) == Val(sb, st, SlotFor(inum, i))
  }

  /** Why a write of n bytes stops after `tot` of them: there is no block for the next piece and the
      disk is full; or the copy of the next piece fails and leaves `torn` bytes of it behind. */
  ghost predicate StopsAt(sb: Super, st: State, inum: nat, off: nat, n: nat, tot: nat, good: nat, partial: nat,
                          torn: nat)
    requires ShapeOk(sb, st) && inum < sb.ninodes && off + n <= 274432
  {
    && tot < n
    && var piece := Min(n - tot, 1024 - (off + tot) % 1024);
       if Val(sb, st, SlotFor(inum, (off + tot) / 1024)) == 0 then Full(sb, st) && torn == 0
       else tot + piece > good && torn == Min(partial, piece)
  }

  /** One round of writei's loop. `good` is how many bytes of src either_copyin can deliver, and
      `partial` how many bytes of the failing piece it has moved when it gives up. */
  method WriteRound(fs: Fs, inum: nat, src: seq<byte>, off: nat, tot: nat, good: nat, partial: nat,
                    ghost st0: State, ghost k: nat, ghost taken: nat, ghost d: set<nat>, ghost m0: set<nat>)
    returns (out: Outcome, m: nat, ghost clean: State, ghost taken': nat, ghost d': set<nat>, ghost m0': set<nat>)
    requires fs.Valid() && inum < fs.sb.ninodes && tot < |src| && off + |src| <= 274432
    requires Budget(fs.sb, st0, fs.st, inum, k, taken, d, m0)
    modifies fs
    ensures fs.Valid() && m <= |src| - tot && m <= 1024 - (off + tot) % 1024
    ensures ChunkStep(fs.sb, old(fs.st), old(fs.owner), fs.st, fs.owner, inum, off + tot, src[tot..tot + m])
    ensures Budget(fs.sb, st0, fs.st, inum, k + 1, taken', d', m0') && taken <= taken' <= taken + 1
    ensures old(Val(fs.sb, fs.st, SlotFor(inum, (off + tot) / 1024))) != 0 ==> taken' == taken
    ensures out.Copied? ==> m == Min(|src| - tot, 1024 - (off + tot) % 1024) && tot + m <= good
    ensures !out.DiskFull? ==> Val(fs.sb, fs.st, SlotFor(inum, (off + tot) / 1024)) != 0
    ensures var c := if out.Copied? then m else 0;
            FsOk(fs.sb, clean, fs.owner) && Logged(old(fs.st), clean) &&
            ChunkStep(fs.sb, old(fs.st), old(fs.owner), clean, fs.owner, inum, off + tot, src[tot..tot + c])
    ensures TornAt(fs.sb, clean, fs.st, inum, off + tot, if out.CopyFailed? then m else 0)
    ensures out.Copied? ==> clean == fs.st
    ensures Val(fs.sb, clean, SlotFor(inum, (off + tot) / 1024)) == Val(fs.sb, fs.st, SlotFor(inum, (off + tot) / 1024))
    ensures out.DiskFull? ==>
              m == 0 && Full(fs.sb, fs.st) && Val(fs.sb, fs.st, SlotFor(inum, (off + tot) / 1024)) == 0
    ensures out.CopyFailed? ==>
              && m == Min(partial, Min(|src| - tot, 1024 - (off + tot) % 1024))
              && tot + Min(|src| - tot, 1024 - (off + tot) % 1024) > good
    ensures SlotsKept(fs.sb, old(fs.st), fs.st, inum, off, |src|)
  {
    hide Used, Val, Sane, SlotsOwn, OwnersNamed, BitsOk, MapStep, ChunkStep, Budget, Logged, Full, NewMaps, One,
         SlotsKept, TornAt;
    ghost var sb, st, owner := fs.sb, fs.st, fs.owner;
    var bn := (off + tot) / 1024;
    var at := (off + tot) % 1024;
    var addr := fs.Bmap(inum, bn);
    ghost var st1, owner1 := fs.st, fs.owner;
    MapKeepsBytes(sb, st, owner, st1, owner1, inum, bn, addr);
    taken' := if addr != Val(sb, st, SlotFor(inum, bn)) then taken + 1 else taken;
    d', m0' := d + One(addr), m0 + NewMaps(sb, st, st1, inum, bn);
    MapFacts(sb, st, owner, st1, owner1, inum, bn, addr);
    RoundSlots(sb, st, st1, inum, off, tot, |src|);
    if addr == 0 {
      BudgetNext(sb, st0, st, owner, st1, owner1, st1, inum, bn, addr, k, taken, d, m0);
      NoBytes(sb, st, owner, st1, owner1, inum, off + tot, src, tot);
      NotTorn(sb, st1, inum, off + tot);
      return DiskFull, 0, st1, taken', d', m0';
    }
    MappedBlock(sb, st1, owner1, inum, bn, addr);
    m := Min(|src| - tot, 1024 - at);
    if tot + m > good {
      out, m, clean := CopyFailed, Min(partial, m), st1;
      NoBytes(sb, st, owner, st1, owner1, inum, off + tot, src, tot);
      fs.st := fs.st.(blocks := fs.st.blocks[addr := Patch(fs.st.blocks[addr], at, src[tot..tot + m])]);
    } else {
      out := Copied;
      LogPatch(st, st1, addr, Patch(fs.st.blocks[addr], at, src[tot..tot + m]));
      fs.st := LogWrite(fs.st, addr, Patch(fs.st.blocks[addr], at, src[tot..tot + m]));
    }
    PatchData(sb, st1, owner1, fs.st, inum, bn, at, src[tot..tot + m], addr);
    if out.Copied? {
      clean := fs.st;
      NotTorn(sb, fs.st, inum, off + tot);
    } else {
      PatchTorn(sb, st1, owner1, fs.st, inum, off + tot, src[tot..tot + m], addr);
    }
    SlotsSame(sb, st, st1, fs.st, inum, off, |src|);
    ChunkChain(sb, st, owner, st1, owner1, fs.st, owner1, inum, off + tot, src[tot..tot + m]);
    OneOf(addr);
    BudgetNext(sb, st0, st, owner, st1, owner1, fs.st, inum, bn, addr, k, taken, d, m0);
  }

  lemma RoundSlots(sb: Super, st: State, st1: State, inum: nat, off: nat, tot: nat, n: nat)
    requires ShapeOk(sb, st) && ShapeOk(sb, st1) && inum < sb.ninodes && tot < n && off + n <= 274432
    requires forall i: nat :: i < MAXFILE && i != (off + tot) / 1024 ==>
               Val(sb, st1, SlotFor(inum, i)) == Val(sb, st, SlotFor(inum, i))
    ensures SlotsKept(sb, st, st1, inum, off, n)
  {
    hide Val, Sane;
  }

  lemma SlotsSame(sb: Super, st: State, st1: State, st2: State, inum: nat, off: nat, n: nat)
    requires SlotsKept(sb, st, st1, inum, off, n) && ShapeOk(sb, st2)
    requires forall t :: SlotOk(sb.ninodes, t) ==> Val(sb, st2, t) == Val(sb, st1, t)
    ensures SlotsKept(sb, st, st2, inum, off, n)
  {
    hide Val, Sane;
  }

  lemma SlotsChain(sb: Super, st: State, st1: State, st2: State, inum: nat, off: nat, n: nat)
    requires SlotsKept(sb, st, st1, inum, off, n) && SlotsKept(sb, st1, st2, inum, off, n)
    ensures SlotsKept(sb, st, st2, inum, off, n)
  {
    hide Val, Sane;
  }

  lemma OneOf(b: nat)
    requires b != 0
    ensures One(b) == {b}
  {
  }

  lemma LogPatch(st: State, st1: State, addr: nat, data: Block)
    requires Logged(st, st1) && addr < |st1.blocks|
    ensures Logged(st, LogWrite(st1, addr, data))
  {
    hide Logged;
    LoggedOne(st1, addr, data);
    LoggedChain(st, st1, LogWrite(st1, addr, data));
  }

  /** The state `st` is what has been logged, but for the torn bytes: they are in one data block, the one of
      position `pos`, which was changed in its buffer and released without being logged. */
  ghost predicate TornAt(sb: Super, clean: State, st: State, inum: nat, pos: nat, torn: nat)
    requires ShapeOk(sb, st) && inum < sb.ninodes
  {
    if torn == 0 then clean == st
    else
      && pos < 274432
      && var addr := Val(sb, st, SlotFor(inum, pos / 1024));
         && sb.datastart <= addr < |st.blocks| == |clean.blocks|
         && st == clean.(blocks := clean.blocks[addr := st.blocks[addr]])
  }

  lemma NotTorn(sb: Super, st: State, inum: nat, pos: nat)
    requires ShapeOk(sb, st) && inum < sb.ninodes
    ensures TornAt(sb, st, st, inum, pos, 0)
  {
  }

  lemma PatchTorn(sb: Super, st: State, owner: Owners, st': State, inum: nat, pos: nat, s: seq<byte>, addr: nat)
    requires FsOk(sb, st, owner) && ShapeOk(sb, st') && inum < sb.ninodes && pos < 274432
    requires pos % 1024 + |s| <= 1024 && addr == Val(sb, st, SlotFor(inum, pos / 1024)) != 0 && addr < |st.blocks|
    requires st' == st.(blocks := st.blocks[addr := Patch(st.blocks[addr], pos % 1024, s)])
    requires Val(sb, st', SlotFor(inum, pos / 1024)) == addr
    ensures TornAt(sb, st, st', inum, pos, |s|)
  {
    hide Val, Used, SlotsOwn, OwnersNamed, BitsOk, Sane;
    OwnedRange(sb, st, owner, SlotFor(inum, pos / 1024));
    if s == [] {
      assert Patch(st.blocks[addr], pos % 1024, s) == st.blocks[addr];
      assert st'.blocks == st.blocks;
    }
  }

  /** The size and the inode block written at the end of writei. */
  function Ended(sb: Super, st: State, inum: nat, end: nat): State
    requires ShapeOk(sb, st) && inum < sb.ninodes && end <= 274432
  {
    Updated(sb, Sized(st, inum, end), inum)
  }

  function Sized(st: State, inum: nat, end: nat): State
    requires inum < |st.inodes|
  {
    st.(inodes := st.inodes[inum := st.inodes[inum].(size := Max(st.inodes[inum].size, end))])
  }

  /** What writei has logged when it returns is a complete write of `tot` bytes. */
  lemma CleanEnd(sb: Super, st0: State, owner0: Owners, st: State, owner: Owners, inum: nat, off: nat, src: seq<byte>,
                 tot: nat)
    requires FsOk(sb, st0, owner0) && inum < sb.ninodes && FsOk(sb, st, owner) && off <= st0.inodes[inum].size
    requires Written(sb, st0, owner0, st, owner, inum, off, src, tot) && tot <= |src| && off + |src| <= 274432
    requires Logged(st0, st)
    ensures var end := Ended(sb, st, inum, off + tot);
            FsOk(sb, end, owner) && WriteDone(sb, st0, owner0, end, inum, off, src, tot, 0) && Synced(sb, end, inum) &&
            Logged(st0, end)
  {
    hide Used, Val, Sane, SlotsOwn, OwnersNamed, BitsOk, Written, Logged, NoHoles, ByteAt, WriteDone, Synced, MetaWrite,
         Updated;
    var st2 := Sized(st, inum, off + tot);
    WriteEnd(sb, st0, owner0, st, owner, inum, off, src, tot, 0);
    LoggedInodes(st0, st, st2);
    UpdatedOk(sb, st2, owner, inum);
    WriteSynced(sb, st0, owner0, st2, owner, Updated(sb, st2, inum), inum, off, src, tot, 0);
  }

  lemma TornEnd(sb: Super, clean: State, st: State, inum: nat, pos: nat, torn: nat)
    requires ShapeOk(sb, clean) && ShapeOk(sb, st) && inum < sb.ninodes && pos <= 274432
    requires TornAt(sb, clean, st, inum, pos, torn)
    requires ShapeOk(sb, Ended(sb, st, inum, pos))
    requires forall s :: SlotOk(sb.ninodes, s) ==> Val(sb, Ended(sb, st, inum, pos), s) == Val(sb, st, s)
    ensures TornAt(sb, Ended(sb, clean, inum, pos), Ended(sb, st, inum, pos), inum, pos, torn)
  {
    hide Val, PutInode;
    DataStart(sb);
    if torn > 0 {
      var clean', st' := Ended(sb, clean, inum, pos), Ended(sb, st, inum, pos);
      var addr := Val(sb, st, SlotFor(inum, pos / 1024));
      assert st'.blocks == clean'.blocks[addr := st'.blocks[addr]];
    }
  }

  lemma MapFacts(sb: Super, st: State, owner: Owners, st1: State, owner1: Owners, inum: nat, bn: nat, addr: nat)
    requires MapStep(sb, st, owner, st1, owner1, inum, bn, addr)
    ensures addr == Val(sb, st1, SlotFor(inum, bn)) && (addr == 0 ==> Full(sb, st1)) && Logged(st, st1)
    ensures Val(sb, st, SlotFor(inum, bn)) != 0 ==>
              addr == Val(sb, st, SlotFor(inum, bn)) && st1 == st && owner1 == owner
    ensures |st.writes| <= |st1.writes| && (|st1.writes| == |st.writes| ==> st1 == st && owner1 == owner)
    ensures |st1.writes| > |st.writes| <==> Val(sb, st, SlotFor(inum, bn)) == 0 && !Full(sb, st)
    ensures forall i: nat :: i < MAXFILE && i != bn ==> Val(sb, st1, SlotFor(inum, i)) == Val(sb, st, SlotFor(inum, i))
  {
    hide Val, Logged, Full;
  }

  lemma NoBytes(sb: Super, st: State, owner: Owners, st1: State, owner1: Owners, inum: nat, pos: nat, src: seq<byte>,
                tot: nat)
    requires ChunkStep(sb, st, owner, st1, owner1, inum, 0, []) && tot <= |src| && pos <= 274432
    ensures ChunkStep(sb, st, owner, st1, owner1, inum, pos, src[tot..tot + 0])
  {
    hide ByteAt, Val;
  }

  lemma MappedBlock(sb: Super, st: State, owner: Owners, inum: nat, bn: nat, addr: nat)
    requires FsOk(sb, st, owner) && inum < sb.ninodes && bn < MAXFILE && addr == Val(sb, st, SlotFor(inum, bn)) != 0
    ensures addr < |st.blocks|
  {
    hide Val, Used;
    OwnedRange(sb, st, owner, SlotFor(inum, bn));
  }

  /** Bytes `s` put over a string from `off` on, lengthening it if need be. */
  ghost function Splice(f: seq<byte>, off: nat, s: seq<byte>): seq<byte>
    requires off <= |f|
  {
    f[..off] + s + if off + |s| < |f| then f[off + |s|..] else []
  }

  function Max(a: nat, b: nat): nat {
    if a < b then b else a
  }

  /** The state after writei: `tot` bytes count as written, and `torn` more have reached the
      buffer of a piece that failed. */
  ghost predicate WriteDone(sb: Super, st0: State, owner0: Owners, st: State, inum: nat, off: nat, src: seq<byte>,
                            tot: nat, torn: nat) {
    && ShapeOk(sb, st0) && ShapeOk(sb, st) && inum < sb.ninodes && tot + torn <= |src|
    && st.inodes[inum].size == Max(st0.inodes[inum].size, off + tot)
    && (forall p: nat :: p < 274432 ==>
          ByteAt(sb, st, inum, p) == if off <= p < off + tot + torn then src[p - off] else ByteAt(sb, st0, inum, p))
    && OthersKept(st0, st, owner0, inum) && HeadKept(sb, st0, st, sb.inodestart + inum)
    && (NoHoles(sb, st0, inum) ==> NoHoles(sb, st, inum))
  }

  /** What torn bytes do to a file: they overwrite, but do not lengthen it. */
  ghost function Torn(f: seq<byte>, off: nat, s: seq<byte>): seq<byte>
    requires off <= |f|
  {
    if s == [] then f else Splice(f, off, s)[..|f|]
  }

  lemma WriteIsTorn(sb: Super, st0: State, owner0: Owners, st: State, inum: nat, off: nat, src: seq<byte>, tot: nat,
                    torn: nat)
    requires WriteDone(sb, st0, owner0, st, inum, off, src, tot, torn) && off <= st0.inodes[inum].size
    ensures off + tot <= |Splice(File(sb, st0, inum), off, src[..tot])|
    ensures File(sb, st, inum) ==
            Torn(Splice(File(sb, st0, inum), off, src[..tot]), off + tot, src[tot..tot + torn])
  {
    hide ByteAt, Sane, OthersKept, NoHoles;
    var f := Splice(File(sb, st0, inum), off, src[..tot]);
    assert |f| == st.inodes[inum].size;
    var g := Torn(f, off + tot, src[tot..tot + torn]);
    forall p: nat | p < |f| ensures File(sb, st, inum)[p] == g[p] {
      assert File(sb, st, inum)[p] == ByteAt(sb, st, inum, p);
    }
  }

  /** A write whose copies succeed is a splice. */
  lemma WriteIsSplice(sb: Super, st0: State, owner0: Owners, st: State, inum: nat, off: nat, src: seq<byte>, tot: nat)
    requires WriteDone(sb, st0, owner0, st, inum, off, src, tot, 0) && off <= st0.inodes[inum].size
    ensures File(sb, st, inum) == Splice(File(sb, st0, inum), off, src[..tot])
  {
    hide ByteAt, Sane, OthersKept, NoHoles;
  }

  lemma WriteEnd(sb: Super, st0: State, owner0: Owners, st: State, owner: Owners, inum: nat, off: nat, src: seq<byte>,
                 tot: nat, torn: nat)
    requires FsOk(sb, st0, owner0) && inum < sb.ninodes && FsOk(sb, st, owner) && off <= st0.inodes[inum].size &&
             tot + torn <= |src|
    requires Written(sb, st0, owner0, st, owner, inum, off, src, tot + torn) && off + |src| <= 274432
    ensures var st' := st.(inodes := st.inodes[inum := st.inodes[inum].(size := Max(st.inodes[inum].size, off + tot))]);
            FsOk(sb, st', owner) && WriteDone(sb, st0, owner0, st', inum, off, src, tot, torn)
  {
    hide Used, Val, Sane, Written, ByteAt, NoHoles, SlotsOwn, OwnersNamed, BitsOk, OthersKept;
    var st' := st.(inodes := st.inodes[inum := st.inodes[inum].(size := Max(st.inodes[inum].size, off + tot))]);
    WrittenFacts(sb, st0, owner0, st, owner, inum, off, src, tot + torn);
    ResizeVals(sb, st, st', inum);
    SameVals(sb, st, owner, st', inum);
    EndHoles(sb, st0, owner0, st, owner, st', inum, off, src, tot, torn);
    EndOthers(st0, st, st', owner0, inum);
    forall p: nat | p < 274432 ensures ByteAt(sb, st', inum, p) == ByteAt(sb, st, inum, p) {
      ResizeBytes(sb, st, st', inum, p);
    }
  }

  lemma WrittenFacts(sb: Super, st0: State, owner0: Owners, st: State, owner: Owners, inum: nat, off: nat,
                     src: seq<byte>, tot: nat)
    requires Written(sb, st0, owner0, st, owner, inum, off, src, tot)
    ensures ShapeOk(sb, st0) && ShapeOk(sb, st) && inum < sb.ninodes && st.inodes[inum].size == st0.inodes[inum].size
    ensures OthersKept(st0, st, owner0, inum) && HeadKept(sb, st0, st, sb.size) && |st.blocks| == sb.size
    ensures forall p: nat :: p < 274432 ==>
              ByteAt(sb, st, inum, p) == if off <= p < off + tot then src[p - off] else ByteAt(sb, st0, inum, p)
  {
    hide ByteAt, Val, Sane, OthersKept;
  }

  lemma ResizeVals(sb: Super, st: State, st': State, inum: nat)
    requires ShapeOk(sb, st) && ShapeOk(sb, st') && inum < sb.ninodes && st'.blocks == st.blocks
    requires st'.inodes == st.inodes[inum := st.inodes[inum].(size := st'.inodes[inum].size)]
    ensures forall s :: SlotOk(sb.ninodes, s) ==> Val(sb, st', s) == Val(sb, st, s)
  {
    hide Word, Sane;
  }

  lemma ResizeBytes(sb: Super, st: State, st': State, inum: nat, p: nat)
    requires ShapeOk(sb, st) && ShapeOk(sb, st') && inum < sb.ninodes && st'.blocks == st.blocks && p < 274432
    requires forall s :: SlotOk(sb.ninodes, s) ==> Val(sb, st', s) == Val(sb, st, s)
    ensures ByteAt(sb, st', inum, p) == ByteAt(sb, st, inum, p)
  {
    hide Val, Sane;
  }

  lemma EndOthers(st0: State, st: State, st': State, owner0: Owners, inum: nat)
    requires OthersKept(st0, st, owner0, inum) && inum < |st.inodes| && st'.blocks == st.blocks
    requires |st'.inodes| == |st.inodes| &&
             forall n :: 0 <= n < |st.inodes| && n != inum ==> st'.inodes[n] == st.inodes[n]
    ensures OthersKept(st0, st', owner0, inum)
  {
  }

  lemma SameVals(sb: Super, st: State, owner: Owners, st': State, inum: nat)
    requires FsOk(sb, st, owner) && ShapeOk(sb, st') && st'.blocks == st.blocks
    requires forall s :: SlotOk(sb.ninodes, s) ==> Val(sb, st', s) == Val(sb, st, s)
    ensures FsOk(sb, st', owner)
  {
    hide Used, Val, Sane;
  }

  lemma EndHoles(sb: Super, st0: State, owner0: Owners, st: State, owner: Owners, st': State, inum: nat, off: nat,
                 src: seq<byte>, tot: nat, torn: nat)
    requires FsOk(sb, st0, owner0) && inum < sb.ninodes && off <= st0.inodes[inum].size && tot + torn <= |src|
    requires Written(sb, st0, owner0, st, owner, inum, off, src, tot + torn) && ShapeOk(sb, st')
    requires forall s :: SlotOk(sb.ninodes, s) ==> Val(sb, st', s) == Val(sb, st, s)
    requires st'.inodes[inum].size == Max(st0.inodes[inum].size, off + tot)
    ensures NoHoles(sb, st0, inum) ==> NoHoles(sb, st', inum)
  {
    hide Val, ByteAt, Sane;
  }

  /** writei. Returns -1 for a bad range and otherwise the number of bytes written, which falls
      short only when the disk is full or a copy failed. */
  method Writei(fs: Fs, inum: nat, src: seq<byte>, off: nat, good: nat, partial: nat)
    returns (r: int, ghost torn: nat, ghost clean: State)
    requires fs.Valid() && inum < fs.sb.ninodes && off < 0x1_0000_0000 && |src| < 0x1_0000_0000
    modifies fs
    ensures fs.Valid() && r <= |src|
    ensures r < 0 <==> off > old(fs.st).inodes[inum].size || off + |src| > 274432
    ensures r < 0 ==> r == -1 && fs.st == old(fs.st) && fs.owner == old(fs.owner) && torn == 0 && clean == fs.st
    ensures r >= 0 ==>
              && FsOk(fs.sb, clean, fs.owner) && Logged(old(fs.st), clean) && Synced(fs.sb, clean, inum)
              && WriteDone(fs.sb, old(fs.st), old(fs.owner), clean, inum, off, src, r, 0)
              && TornAt(fs.sb, clean, fs.st, inum, off + r, torn)
    ensures r >= 0 ==>
              WriteDone(fs.sb, old(fs.st), old(fs.owner), fs.st, inum, off, src, r, torn) && Synced(fs.sb, fs.st, inum)
    ensures r == |src| ==> torn == 0
    ensures 0 <= r < |src| ==> StopsAt(fs.sb, fs.st, inum, off, |src|, r, good, partial, torn)
    ensures r >= 0 ==> SlotsKept(fs.sb, old(fs.st), fs.st, inum, off, |src|)
    ensures |src| <= 3072 ==>
              |fs.st.logged - old(fs.st).logged| <=
                if off % 1024 == 0 || NoHoles(fs.sb, old(fs.st), inum) || fs.sb.size <= 32768 then 10 else 11
  {
    hide Used, Val, Sane, SlotsOwn, OwnersNamed, BitsOk, Written, Budget, Logged, Full, NoHoles, ByteAt, WriteDone,
         Synced, MetaWrite, StopsAt, SlotsKept, TornAt, Updated;
    var n := |src|;
    ghost var st0 := fs.st;
    torn, clean := 0, st0;
    if off > fs.st.inodes[inum].size || (off + n) % 0x1_0000_0000 < off {
      return -1, torn, clean;
    }
    if off + n > 274432 {
      return -1, torn, clean;
    }
    var tot;
    ghost var k, taken, d, m;
    tot, torn, clean, k, taken, d, m := WriteLoop(fs, inum, src, off, good, partial);
    WriteEnd(fs.sb, st0, old(fs.owner), fs.st, fs.owner, inum, off, src, tot, torn);
    ghost var st1 := fs.st;
    fs.st := fs.st.(inodes :=
      fs.st.inodes[inum := fs.st.inodes[inum].(size := Max(fs.st.inodes[inum].size, off + tot))]);
    ghost var st2 := fs.st;
    SizeOnly(fs.sb, st0, st1, st2, inum, k, taken, d, m);
    ResizeVals(fs.sb, st1, st2, inum);
    Iupdate(fs, inum);
    CleanEnd(fs.sb, st0, old(fs.owner), clean, fs.owner, inum, off, src, tot);
    WriteSynced(fs.sb, st0, old(fs.owner), st2, fs.owner, fs.st, inum, off, src, tot, torn);
    SlotsSame(fs.sb, st0, st1, st2, inum, off, n);
    SlotsSame(fs.sb, st0, st2, fs.st, inum, off, n);
    TornEnd(fs.sb, clean, st1, inum, off + tot, torn);
    clean := Ended(fs.sb, clean, inum, off + tot);
    if tot < n {
      StopSame(fs.sb, st1, st2, inum, off, n, tot, good, partial, torn);
      StopSame(fs.sb, st2, fs.st, inum, off, n, tot, good, partial, torn);
    }
    if n <= 3072 {
      BudgetBound(fs.sb, st0, st2, fs.st, inum, k, taken, d, m, off % 1024 == 0);
    }
    r := tot;
  }

  lemma NoChange(st: State)
    ensures Logged(st, st) && |st.logged - st.logged| == 0
  {
    LoggedSame(st, st);
  }

  /** Changing the size in memory logs nothing. */
  lemma SizeOnly(sb: Super, st0: State, st1: State, st2: State, inum: nat, k: nat, taken: nat, d: set<nat>, m: set<nat>)
    requires Budget(sb, st0, st1, inum, k, taken, d, m) && ShapeOk(sb, st2)
    requires st2.blocks == st1.blocks && st2.logged == st1.logged && st2.writes == st1.writes
    requires st2.inodes[inum].addrs == st1.inodes[inum].addrs
    ensures Budget(sb, st0, st2, inum, k, taken, d, m)
    ensures Logged(st0, st1) ==> Logged(st0, st2)
    ensures Full(sb, st1) ==> Full(sb, st2)
  {
    hide Sane, Logged;
    if Logged(st0, st1) { LoggedInodes(st0, st1, st2); }
  }

  lemma WriteSynced(sb: Super, st0: State, owner0: Owners, st2: State, owner: Owners, st3: State, inum: nat, off: nat,
                    src: seq<byte>, tot: nat, torn: nat)
    requires FsOk(sb, st0, owner0) && FsOk(sb, st2, owner) && WriteDone(sb, st0, owner0, st2, inum, off, src, tot, torn)
    requires MetaWrite(sb, st2, st3, sb.inodestart + inum)
    ensures WriteDone(sb, st0, owner0, st3, inum, off, src, tot, torn)
    ensures Logged(st0, st2) ==> Logged(st0, st3)
    ensures Full(sb, st2) ==> Full(sb, st3)
    ensures ShapeOk(sb, st2) && ShapeOk(sb, st3)
    ensures forall s :: SlotOk(sb.ninodes, s) ==> Val(sb, st3, s) == Val(sb, st2, s)
  {
    hide Used, Val, Sane, Logged;
    DataStart(sb);
    MetaKeeps(sb, st2, owner, st3, sb.inodestart + inum);
    LogChain(st0, st2, st3);
    UsedFrame(sb, st2.blocks, st3.blocks);
    forall p: nat | p < 274432 ensures ByteAt(sb, st3, inum, p) == ByteAt(sb, st2, inum, p) {
      if Val(sb, st2, SlotFor(inum, p / 1024)) != 0 { OwnedRange(sb, st2, owner, SlotFor(inum, p / 1024)); }
    }
  }

  lemma StopSame(sb: Super, st: State, st': State, inum: nat, off: nat, n: nat, tot: nat, good: nat, partial: nat,
                 torn: nat)
    requires ShapeOk(sb, st) && ShapeOk(sb, st') && inum < sb.ninodes && off + n <= 274432
    requires StopsAt(sb, st, inum, off, n, tot, good, partial, torn) && (Full(sb, st) ==> Full(sb, st'))
    requires forall s :: SlotOk(sb.ninodes, s) ==> Val(sb, st', s) == Val(sb, st, s)
    ensures StopsAt(sb, st', inum, off, n, tot, good, partial, torn)
  {
    hide Val, Sane, Full;
  }

  /** How many rounds there have been, and how many of them took a new block; not the first one of
      an unaligned write to a file without holes. */
  ghost predicate Rounds(off: nat, n: nat, tot: nat, k: nat, taken: nat, stop: bool, solid: bool) {
    && taken <= k && (solid && off % 1024 != 0 && k > 0 ==> taken < k) && (k == 0 ==> tot == 0)
    && (k > 0 ==> 1024 * (k - 1) < n + off % 1024)
    && (!stop && tot < n ==> off + tot == if k == 0 then off else off - off % 1024 + 1024 * k)
  }

  lemma RoundsZero(off: nat, n: nat, tot: nat, k: nat, taken: nat, stop: bool, solid: bool)
    requires Rounds(off, n, tot, k, taken, stop, solid)
    ensures k == 0 ==> tot == 0
  {
  }

  lemma Stopped(sb: Super, st: State, inum: nat, off: nat, n: nat, tot: nat, good: nat, partial: nat, torn: nat,
                out: Outcome)
    requires ShapeOk(sb, st) && inum < sb.ninodes && off + n <= 274432 && tot < n && !out.Copied?
    requires out.DiskFull? ==> torn == 0 && Full(sb, st)
    requires out.DiskFull? <==> Val(sb, st, SlotFor(inum, (off + tot) / 1024)) == 0
    requires out.CopyFailed? ==> torn == Min(partial, Min(n - tot, 1024 - (off + tot) % 1024))
    requires out.CopyFailed? ==> tot + Min(n - tot, 1024 - (off + tot) % 1024) > good
    ensures StopsAt(sb, st, inum, off, n, tot, good, partial, torn)
  {
    hide Val, Sane, Full;
  }

  lemma RoundsStart(off: nat, n: nat, solid: bool)
    ensures Rounds(off, n, 0, 0, 0, false, solid)
  {
  }

  lemma SlotsStart(sb: Super, st: State, owner: Owners, inum: nat, off: nat, n: nat)
    requires FsOk(sb, st, owner) && inum < sb.ninodes
    ensures SlotsKept(sb, st, st, inum, off, n)
  {
    hide Val, Used;
  }

  lemma RoundsNext(off: nat, n: nat, tot: nat, m: nat, k: nat, taken: nat, taken': nat, copied: bool, solid: bool)
    requires Rounds(off, n, tot, k, taken, false, solid) && tot < n && taken <= taken' <= taken + 1
    requires solid && k == 0 && off % 1024 != 0 ==> taken' == taken
    requires copied ==> m == Min(n - tot, 1024 - (off + tot) % 1024)
    ensures Rounds(off, n, if copied then tot + m else tot, k + 1, taken', !copied, solid)
  {
    if k > 0 {
      assert off - off % 1024 == off / 1024 * 1024;
      assert (off + tot) % 1024 == 0;
    }
  }

  lemma RoundsBound(off: nat, n: nat, tot: nat, k: nat, taken: nat, stop: bool, solid: bool)
    requires Rounds(off, n, tot, k, taken, stop, solid)
    ensures n <= 3072 ==> k <= 4 && taken <= k && (off % 1024 == 0 ==> k <= 3) && (solid ==> taken <= 3)
  {
  }

  /** An unaligned first byte lies in a block that the file already has. */
  lemma FirstBlock(sb: Super, st0: State, owner0: Owners, st: State, owner: Owners, inum: nat, off: nat, src: seq<byte>,
                   tot: nat)
    requires Written(sb, st0, owner0, st, owner, inum, off, src, tot)
    requires off <= st0.inodes[inum].size && off < 274432
    ensures NoHoles(sb, st0, inum) && tot == 0 && off % 1024 != 0 ==> Val(sb, st, SlotFor(inum, off / 1024)) != 0
  {
    hide Val, ByteAt;
  }

  lemma PosInBlock(pos: nat, m: nat)
    requires m <= 1024 - pos % 1024
    ensures pos / 1024 * 1024 <= pos && pos + m <= pos / 1024 * 1024 + 1024
  {
  }

  lemma LogChain(st0: State, st1: State, st2: State)
    ensures Logged(st0, st1) && Logged(st1, st2) ==> Logged(st0, st2)
  {
    hide Logged;
    if Logged(st0, st1) && Logged(st1, st2) { LoggedChain(st0, st1, st2); }
  }

  /** writei's loop. */
  method WriteLoop(fs: Fs, inum: nat, src: seq<byte>, off: nat, good: nat, partial: nat)
    returns (tot: nat, ghost torn: nat, ghost clean: State, ghost k: nat, ghost taken: nat, ghost d: set<nat>,
             ghost m: set<nat>)
    requires fs.Valid() && inum < fs.sb.ninodes && off <= fs.st.inodes[inum].size && off + |src| <= 274432
    modifies fs
    ensures fs.Valid() && tot + torn <= |src|
    ensures Written(fs.sb, old(fs.st), old(fs.owner), fs.st, fs.owner, inum, off, src, tot + torn)
    ensures Budget(fs.sb, old(fs.st), fs.st, inum, k, taken, d, m)
    ensures |src| <= 3072 ==>
              k <= 4 && taken <= k && (off % 1024 == 0 ==> k <= 3) && (NoHoles(fs.sb, old(fs.st), inum) ==> taken <= 3)
    ensures if tot < |src| then StopsAt(fs.sb, fs.st, inum, off, |src|, tot, good, partial, torn) else torn == 0
    ensures SlotsKept(fs.sb, old(fs.st), fs.st, inum, off, |src|)
    ensures FsOk(fs.sb, clean, fs.owner) && Logged(old(fs.st), clean)
    ensures Written(fs.sb, old(fs.st), old(fs.owner), clean, fs.owner, inum, off, src, tot)
    ensures TornAt(fs.sb, clean, fs.st, inum, off + tot, torn)
  {
    hide Used, Val, Sane, SlotsOwn, OwnersNamed, BitsOk, Written, Budget, Logged, Full, NoHoles, ByteAt, ChunkStep,
         SlotsKept, Rounds, StopsAt, TornAt;
    ghost var sb, st0, owner0 := fs.sb, fs.st, fs.owner;
    ghost var solid := NoHoles(sb, st0, inum);
    var n := |src|;
    tot, torn, clean, k, taken, d, m := 0, 0, st0, 0, 0, {}, {};
    NotTorn(sb, st0, inum, off);
    BudgetStart(sb, st0, inum);
    WrittenStart(sb, st0, owner0, inum, off, src);
    NoChange(st0);
    RoundsStart(off, n, solid);
    SlotsStart(sb, st0, owner0, inum, off, n);
    var stop := false;
    while tot < n && !stop
      invariant tot + torn <= n && fs.Valid()
      invariant Written(sb, st0, owner0, fs.st, fs.owner, inum, off, src, tot + torn)
      invariant Budget(sb, st0, fs.st, inum, k, taken, d, m)
      invariant Rounds(off, n, tot, k, taken, stop, solid)
      invariant if stop then StopsAt(sb, fs.st, inum, off, n, tot, good, partial, torn) else torn == 0
      invariant SlotsKept(sb, st0, fs.st, inum, off, n)
      invariant FsOk(sb, clean, fs.owner) && Logged(st0, clean) && (!stop ==> clean == fs.st)
      invariant Written(sb, st0, owner0, clean, fs.owner, inum, off, src, tot)
      invariant TornAt(sb, clean, fs.st, inum, off + tot, torn)
      decreases n - tot, !stop
    {
      ghost var st, owner, k0 := fs.st, fs.owner, k;
      FirstBlock(sb, st0, owner0, fs.st, fs.owner, inum, off, src, tot);
      RoundsZero(off, n, tot, k, taken, stop, solid);
      var out, moved, clean1, taken1, d1, m1 :=
        WriteRound(fs, inum, src, off, tot, good, partial, st0, k, taken, d, m);
      RoundsNext(off, n, tot, moved, k, taken, taken1, out.Copied?, solid);
      k, taken, d, m := k + 1, taken1, d1, m1;
      PosInBlock(off + tot, moved);
      WrittenNext(sb, st0, owner0, st, owner, fs.st, fs.owner, inum, off, src, tot, moved, (off + tot) / 1024);
      LogChain(st0, st, clean1);
      clean := clean1;
      SlotsChain(sb, st0, st, fs.st, inum, off, n);
      if out.Copied? {
        tot := tot + moved;
        NotTorn(sb, fs.st, inum, off + tot);
      } else {
        torn := moved;
        WrittenNext(sb, st0, owner0, st, owner, clean, fs.owner, inum, off, src, tot, 0, (off + tot) / 1024);
        stop := true;
        Stopped(sb, fs.st, inum, off, n, tot, good, partial, torn, out);
      }
    }
    RoundsBound(off, n, tot, k, taken, stop, solid);
  }
}
