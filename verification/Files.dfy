/** Inodes and the blocks they own (kernel/fs.c, kernel/fs.h): the invariant of block ownership
    and the meaning of an inode as a string of bytes. */
module Files {
  import opened Base
  import opened Blocks
  import opened Bitmap

  const NDIRECT: nat := 12
  const NINDIRECT: nat := 256
  const MAXFILE: nat := 268

  /** The fields of an inode that bmap, itrunc, readi and writei use. */
  datatype Inode = Inode(addrs: seq<word>, size: nat)

  /** One log_write: the block and its content. */
  datatype LogEntry = LogEntry(b: nat, data: Block)

  /** `blocks` is what bread returns, `inodes` the in-memory inodes, `writes` the log_writes since
      the operation began, in order, and `logged` the blocks among them. */
  datatype State = State(blocks: Disk, inodes: seq<Inode>, logged: set<nat>, writes: seq<LogEntry>)

  /** A changed buffer is passed to log_write. */
  function LogWrite(st: State, b: nat, data: Block): State
    requires b < |st.blocks|
  {
    st.(blocks := st.blocks[b := data], logged := st.logged + {b}, writes := st.writes + [LogEntry(b, data)])
  }

  /** What log_writes leave of the blocks. */
  function Replay(d: Disk, ws: seq<LogEntry>): (r: Disk)
    ensures |r| == |d|
  {
    if ws == [] then d
    else
      var r, w := Replay(d, ws[..|ws| - 1]), ws[|ws| - 1];
      if w.b < |r| then r[w.b := w.data] else r
  }

  function Touched(ws: seq<LogEntry>): set<nat> {
    set w | w in ws :: w.b
  }

  lemma {:induction false} ReplayTwice(d: Disk, a: seq<LogEntry>, b: seq<LogEntry>)
    ensures Replay(d, a + b) == Replay(Replay(d, a), b)
    decreases |b|
  {
    if b == [] {
      assert a + b == a;
    } else {
      assert (a + b)[..|a + b| - 1] == a + b[..|b| - 1];
      ReplayTwice(d, a, b[..|b| - 1]);
    }
  }

  /** Every change of a block has been logged, in order: the log_writes since `st` lead from its
      blocks to those of `st'`. */
  ghost predicate Logged(st: State, st': State) {
    && st.writes <= st'.writes
    && st'.blocks == Replay(st.blocks, st'.writes[|st.writes|..])
    && st'.logged == st.logged + Touched(st'.writes[|st.writes|..])
  }

  lemma LoggedSame(st: State, st': State)
    requires st'.blocks == st.blocks && st'.logged == st.logged && st'.writes == st.writes
    ensures Logged(st, st')
  {
    assert st'.writes[|st.writes|..] == [];
  }

  lemma LoggedOne(st: State, b: nat, data: Block)
    requires b < |st.blocks|
    ensures Logged(st, LogWrite(st, b, data))
  {
    var st' := LogWrite(st, b, data);
    var ws := st'.writes[|st.writes|..];
    assert ws == [LogEntry(b, data)] && ws[..0] == [];
    assert LogEntry(b, data) in ws;
  }

  lemma LoggedChain(st: State, st1: State, st2: State)
    requires Logged(st, st1) && Logged(st1, st2)
    ensures Logged(st, st2)
  {
    hide Replay;
    var a, b := st1.writes[|st.writes|..], st2.writes[|st1.writes|..];
    assert st2.writes[|st.writes|..] == a + b;
    ReplayTwice(st.blocks, a, b);
    assert Touched(a + b) == Touched(a) + Touched(b);
  }

  lemma {:induction false} ReplayUntouched(d: Disk, ws: seq<LogEntry>, b: nat)
    requires b < |d| && b !in Touched(ws)
    ensures Replay(d, ws)[b] == d[b]
    decreases |ws|
  {
    if ws != [] {
      assert ws[|ws| - 1] in ws && ws[|ws| - 1].b in Touched(ws);
      forall w | w in ws[..|ws| - 1] ensures w in ws { }
      assert Touched(ws[..|ws| - 1]) <= Touched(ws);
      ReplayUntouched(d, ws[..|ws| - 1], b);
    }
  }

  /** A block that has changed has been logged. */
  lemma ChangedIsLogged(st: State, st': State, b: nat)
    requires Logged(st, st') && b < |st.blocks|
    ensures |st'.blocks| == |st.blocks| && (st'.blocks[b] != st.blocks[b] ==> b in st'.logged)
  {
    hide Replay;
    var ws := st'.writes[|st.writes|..];
    if b !in Touched(ws) { ReplayUntouched(st.blocks, ws, b); }
  }

  /** Inodes do not matter. */
  lemma LoggedInodes(st: State, st': State, st2: State)
    requires Logged(st, st') && st2.blocks == st'.blocks && st2.logged == st'.logged && st2.writes == st'.writes
    ensures Logged(st, st2)
  {
  }

  /** A place that can hold a block number. */
  datatype Slot = Direct(inum: nat, i: nat) | Indirect(inum: nat) | Entry(inum: nat, j: nat)

  predicate SlotOk(n: nat, s: Slot) {
    s.inum < n && (s.Direct? ==> s.i < NDIRECT) && (s.Entry? ==> s.j < NINDIRECT)
  }

  predicate ShapeOk(sb: Super, st: State) {
    && Sane(sb) && |st.blocks| == sb.size && |st.inodes| == sb.ninodes
    && forall n :: 0 <= n < |st.inodes| ==> |st.inodes[n].addrs| == 13 && st.inodes[n].size <= 274432
  }

  /** The block number in a slot; 0 stands for none. */
  function Val(sb: Super, st: State, s: Slot): nat
    requires ShapeOk(sb, st) && SlotOk(sb.ninodes, s)
  {
    var a := st.inodes[s.inum].addrs;
    match s
    case Direct(_, i) => a[i]
    case Indirect(_) => a[12]
    case Entry(_, j) => if a[12] == 0 || a[12] >= |st.blocks| then 0 else Word(st.blocks[a[12]], j)
  }

  /** Which slot owns which block. */
  type Owners = map<nat, Slot>

  /** Every filled slot owns the block it names. */
  ghost predicate SlotsOwn(sb: Super, st: State, owner: Owners)
    requires ShapeOk(sb, st)
  {
    forall s: Slot :: SlotOk(sb.ninodes, s) && Val(sb, st, s) != 0 ==>
        Val(sb, st, s) in owner && owner[Val(sb, st, s)] == s
  }

  /** Every owned block is a data block and is named by its slot. */
  ghost predicate OwnersNamed(sb: Super, st: State, owner: Owners)
    requires ShapeOk(sb, st)
  {
    forall b :: b in owner ==> sb.datastart <= b < sb.size && SlotOk(sb.ninodes, owner[b]) && Val(sb, st, owner[b]) == b
  }

  /** The bitmap marks exactly the blocks before the data area and the owned blocks. */
  ghost predicate BitsOk(sb: Super, st: State, owner: Owners)
    requires ShapeOk(sb, st)
  {
    forall b: nat :: b < sb.size ==> (Used(sb, st.blocks, b) <==> b < sb.datastart || b in owner)
  }

  ghost predicate FsOk(sb: Super, st: State, owner: Owners) {
    ShapeOk(sb, st) && SlotsOwn(sb, st, owner) && OwnersNamed(sb, st, owner) && BitsOk(sb, st, owner)
  }

  /** No block is referenced twice. */
  lemma AtMostOneReference(sb: Super, st: State, owner: Owners, s: Slot, s': Slot)
    requires FsOk(sb, st, owner) && SlotOk(sb.ninodes, s) && SlotOk(sb.ninodes, s')
    ensures Val(sb, st, s) == Val(sb, st, s') != 0 ==> s == s'
    ensures Val(sb, st, s) != 0 ==> sb.datastart <= Val(sb, st, s) < sb.size && Used(sb, st.blocks, Val(sb, st, s))
  {
  }

  // ------------------------------------------------------------ files as bytes

  /** The slot of the nth block of a file. */
  function SlotFor(inum: nat, bn: nat): Slot {
    if bn < 12 then Direct(inum, bn) else Entry(inum, bn - 12)
  }

  predicate IsData(s: Slot) {
    !s.Indirect?
  }

  /** No unallocated block below the size. */
  ghost predicate NoHoles(sb: Super, st: State, inum: nat)
    requires ShapeOk(sb, st) && inum < sb.ninodes
  {
    forall bn: nat :: bn < MAXFILE && bn * 1024 < st.inodes[inum].size ==> Val(sb, st, SlotFor(inum, bn)) != 0
  }

  /** Byte `p` of a file. */
  function ByteAt(sb: Super, st: State, inum: nat, p: nat): byte
    requires ShapeOk(sb, st) && inum < sb.ninodes && p < 274432
  {
    var b := Val(sb, st, SlotFor(inum, p / 1024));
    if 0 < b < |st.blocks| then st.blocks[b][p % 1024] else 0
  }

  /** The contents of a file. */
  ghost function File(sb: Super, st: State, inum: nat): (f: seq<byte>)
    requires ShapeOk(sb, st) && inum < sb.ninodes
    ensures |f| == st.inodes[inum].size
  {
    seq(st.inodes[inum].size, p requires 0 <= p < st.inodes[inum].size => ByteAt(sb, st, inum, p))
  }

  // ------------------------------------------------------------ what operations keep

  /** Other inodes, and the blocks they own, are as before. */
  ghost predicate OthersKept(st: State, st': State, owner: Owners, inum: nat) {
    && |st'.inodes| == |st.inodes| && |st'.blocks| == |st.blocks|
    && (forall n :: 0 <= n < |st.inodes| && n != inum ==> st'.inodes[n] == st.inodes[n])
    && (forall b :: b in owner && owner[b].inum != inum && b < |st.blocks| ==> st'.blocks[b] == st.blocks[b])
  }

  /** The data blocks of a file are where and what they were. */
  ghost predicate DataKept(st: State, st': State, owner: Owners) {
    && |st'.blocks| == |st.blocks|
    && (forall b :: b in owner && IsData(owner[b]) && b < |st.blocks| ==> st'.blocks[b] == st.blocks[b])
  }

  /** The blocks before the bitmap (super block, log, inodes), except perhaps `but`, are as before. */
  ghost predicate HeadKept(sb: Super, st: State, st': State, but: nat) {
    && |st'.blocks| == |st.blocks|
    && forall c: nat :: c < sb.bmapstart && c != but && c < |st.blocks| ==> st'.blocks[c] == st.blocks[c]
  }

  lemma OtherVal(sb: Super, st: State, st': State, owner: Owners, inum: nat, s: Slot)
    requires FsOk(sb, st, owner) && ShapeOk(sb, st') && OthersKept(st, st', owner, inum)
    requires SlotOk(sb.ninodes, s) && s.inum != inum
    ensures Val(sb, st', s) == Val(sb, st, s)
  {
    if s.Entry? {
      assert Val(sb, st, Indirect(s.inum)) == st.inodes[s.inum].addrs[12];
    }
  }

  /** Other files keep their contents. */
  lemma OtherFile(sb: Super, st: State, st': State, owner: Owners, inum: nat, n: nat)
    requires FsOk(sb, st, owner) && ShapeOk(sb, st') && OthersKept(st, st', owner, inum)
    requires n < sb.ninodes && n != inum
    ensures File(sb, st', n) == File(sb, st, n)
    ensures NoHoles(sb, st, n) ==> NoHoles(sb, st', n)
  {
    forall p: nat | p < st.inodes[n].size ensures ByteAt(sb, st', n, p) == ByteAt(sb, st, n, p) {
      OtherVal(sb, st, st', owner, inum, SlotFor(n, p / 1024));
    }
    forall bn: nat | bn < MAXFILE ensures Val(sb, st', SlotFor(n, bn)) == Val(sb, st, SlotFor(n, bn)) {
      OtherVal(sb, st, st', owner, inum, SlotFor(n, bn));
    }
  }

  // ------------------------------------------------------------ filling a slot

  /** Slot `s` takes block `b`, and no other slot changes. */
  ghost predicate SlotSet(sb: Super, st: State, st': State, s: Slot, b: nat) {
    && ShapeOk(sb, st) && ShapeOk(sb, st') && SlotOk(sb.ninodes, s)
    && forall s' :: SlotOk(sb.ninodes, s') ==> Val(sb, st', s') == if s' == s then b else Val(sb, st, s')
  }

  lemma DataStart(sb: Super)
    requires Sane(sb)
    ensures 0 < sb.datastart <= sb.size < 0x1_0000_0000 && sb.inodestart + sb.ninodes <= sb.bmapstart <= sb.datastart
  {
  }

  lemma FillKeepsOk(sb: Super, st: State, st': State, owner: Owners, s: Slot, b: nat)
    requires FsOk(sb, st, owner) && SlotSet(sb, st, st', s, b) && Val(sb, st, s) == 0
    requires sb.datastart <= b < sb.size && b !in owner && b != 0
    requires forall c: nat :: c < sb.size ==> (Used(sb, st'.blocks, c) <==> c == b || Used(sb, st.blocks, c))
    ensures FsOk(sb, st', owner[b := s])
  {
    hide Val, Used, Sane;
    DataStart(sb);
    assert SlotsOwn(sb, st', owner[b := s]);
    var owner' := owner[b := s];
    forall c | c in owner'
      ensures sb.datastart <= c < sb.size && SlotOk(sb.ninodes, owner'[c]) && Val(sb, st', owner'[c]) == c
    {
      if c != b { assert Val(sb, st, owner[c]) == c; }
    }
    assert OwnersNamed(sb, st', owner[b := s]);
    assert BitsOk(sb, st', owner[b := s]);
  }
}
