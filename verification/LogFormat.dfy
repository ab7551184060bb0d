/** The on-disk format of the redo log (kernel/log.c) and the meaning of a disk: the
    content its home blocks have once recovery has replayed the log. */
module LogFormat {
  import opened Base
  import opened Blocks

  const LOGSIZE: nat := 30
  const MAXOPBLOCKS: nat := 10

  /** Where the log lies on the disk: a header block at `start`, then `size - 1` data blocks. */
  datatype Geometry = Geometry(start: nat, size: nat, blocks: nat) {
    ghost predicate Valid() {
      && 1 <= size
      && start + size <= blocks
      && blocks <= 0x8000_0000
    }

    predicate IsLog(b: nat) {
      start <= b < start + size
    }

    /** A block whose content belongs to the file system rather than to the log. */
    predicate IsHome(b: nat) {
      b < blocks && !IsLog(b)
    }

    /** The log block that carries the content of entry `i` of the header. */
    function Slot(i: nat): nat {
      start + i + 1
    }
  }

  type Disk = seq<Block>

  function IndexOf(s: seq<nat>, b: nat): (i: nat)
    requires b in s
    ensures i < |s| && s[i] == b
  {
    if s[0] == b then 0 else 1 + IndexOf(s[1..], b)
  }

  lemma IndexOfUnique(s: seq<nat>, i: nat)
    requires Distinct(s) && i < |s|
    ensures s[i] in s && IndexOf(s, s[i]) == i
  {
  }

  /** A 32-bit word read through an `int`. */
  function Signed(w: word): int {
    if w < 0x8000_0000 then w else w - 0x1_0000_0000
  }

  /** The block numbers a header block lists: `n` and then `block[0..n]`. */
  function Header(h: Block): (s: seq<nat>) {
    var n := Signed(Word(h, 0));
    if 0 <= n <= LOGSIZE then seq(n, i requires 0 <= i < n => Word(h, i + 1)) else []
  }

  /** The block that write_head produces from the header buffer: `n` and the first `n`
      entries are overwritten, the rest of the buffer stays. */
  function EncodeHeader(h: Block, s: seq<nat>): (r: Block)
    requires |s| <= LOGSIZE && forall i :: 0 <= i < |s| ==> s[i] < TWO32
  {
    WriteEntries(SetWord(h, 0, |s|), s, |s|)
  }

  /** The first `k` entries of `s` written into the header buffer. */
  function WriteEntries(h: Block, s: seq<nat>, k: nat): (r: Block)
    requires k <= |s| <= LOGSIZE && forall i :: 0 <= i < |s| ==> s[i] < TWO32
  {
    if k == 0 then h else SetWord(WriteEntries(h, s, k - 1), k, s[k - 1])
  }

  lemma {:induction false} WriteEntriesWords(h: Block, s: seq<nat>, k: nat, j: nat)
    requires k <= |s| <= LOGSIZE && forall i :: 0 <= i < |s| ==> s[i] < TWO32
    requires j < WORDS
    ensures Word(WriteEntries(h, s, k), j) == if 1 <= j <= k then s[j - 1] else Word(h, j)
  {
    if k > 0 {
      WriteEntriesWords(h, s, k - 1, j);
      WordSetWord(WriteEntries(h, s, k - 1), k, s[k - 1], j);
    }
  }

  /** Round trip: the header read back from disk is the in-memory header that was written. */
  lemma HeaderRoundTrip(h: Block, s: seq<nat>)
    requires |s| <= LOGSIZE && forall i :: 0 <= i < |s| ==> s[i] < TWO32
    ensures Header(EncodeHeader(h, s)) == s
  {
    var r := EncodeHeader(h, s);
    var h0 := SetWord(h, 0, |s|);
    WordSetWord(h, 0, |s|, 0);
    WriteEntriesWords(h0, s, |s|, 0);
    assert Word(r, 0) == |s|;
    forall j | 0 <= j < |s| ensures Header(r)[j] == s[j] {
      WriteEntriesWords(h0, s, |s|, j + 1);
    }
  }

  /** A header that recovery can trust. */
  ghost predicate HeaderOk(g: Geometry, s: seq<nat>) {
    && |s| <= LOGSIZE
    && |s| <= g.size - 1
    && Distinct(s)
    && forall i :: 0 <= i < |s| ==> g.IsHome(s[i])
  }

  ghost predicate DiskOk(g: Geometry, d: Disk) {
    && g.Valid()
    && |d| == g.blocks
    && 0 <= Signed(Word(d[g.start], 0)) <= LOGSIZE
    && HeaderOk(g, Header(d[g.start]))
  }

  /** What home block `b` holds after a complete recovery of disk `d`: the copy in the log
      if the header lists `b`, the home copy otherwise. */
  function DurableAt(g: Geometry, d: Disk, b: nat): Block
    requires DiskOk(g, d) && g.IsHome(b)
  {
    var s := Header(d[g.start]);
    if b in s then d[g.Slot(IndexOf(s, b))] else d[b]
  }

  /** The durable content of all home blocks. */
  function Durable(g: Geometry, d: Disk): map<nat, Block>
    requires DiskOk(g, d)
  {
    map b: nat | b < g.blocks && g.IsHome(b) :: DurableAt(g, d, b)
  }

  /** The home blocks as they stand on the disk. */
  function Homes(g: Geometry, d: Disk): map<nat, Block>
    requires g.Valid() && |d| == g.blocks
  {
    map b: nat | b < g.blocks && g.IsHome(b) :: d[b]
  }

  /** With an empty header the durable content is what the home blocks hold. */
  lemma EmptyHeaderDurable(g: Geometry, d: Disk)
    requires DiskOk(g, d) && Header(d[g.start]) == []
    ensures Durable(g, d) == Homes(g, d)
  {
  }

  /** write_log: filling log slots changes nothing durable while the header is empty. */
  lemma SlotWriteKeepsDurable(g: Geometry, d: Disk, i: nat, v: Block)
    requires DiskOk(g, d) && Header(d[g.start]) == []
    requires i < g.size - 1
    ensures DiskOk(g, d[g.Slot(i) := v]) && Durable(g, d[g.Slot(i) := v]) == Durable(g, d)
  {
  }

  /** The header block that write_head leaves on the disk is again a trustworthy one. */
  lemma HeadWriteOk(g: Geometry, d: Disk, h: Block, s: seq<nat>)
    requires DiskOk(g, d) && HeaderOk(g, s)
    ensures var d' := d[g.start := EncodeHeader(h, s)];
            DiskOk(g, d') && Header(d'[g.start]) == s
  {
    HeaderRoundTrip(h, s);
    WordSetWord(h, 0, |s|, 0);
    WriteEntriesWords(SetWord(h, 0, |s|), s, |s|, 0);
  }

  /** write_head: the commit point switches every listed block to its logged copy, at once. */
  lemma HeadWriteCommits(g: Geometry, d: Disk, h: Block, s: seq<nat>, b: nat)
    requires DiskOk(g, d) && Header(d[g.start]) == []
    requires HeaderOk(g, s) && g.IsHome(b)
    ensures var d' := d[g.start := EncodeHeader(h, s)];
            && DiskOk(g, d')
            && Header(d'[g.start]) == s
            && DurableAt(g, d', b) == if b in s then d[g.Slot(IndexOf(s, b))] else d[b]
  {
    HeadWriteOk(g, d, h, s);
  }

  /** install_trans: copying a logged block home changes nothing durable. */
  lemma InstallKeepsDurable(g: Geometry, d: Disk, i: nat)
    requires DiskOk(g, d) && i < |Header(d[g.start])|
    ensures var s := Header(d[g.start]);
            var d' := d[s[i] := d[g.Slot(i)]];
            DiskOk(g, d') && Header(d'[g.start]) == s && Durable(g, d') == Durable(g, d)
  {
  }

  /** write_head with n = 0: erasing the header is safe once every logged block is home. */
  lemma ClearKeepsDurable(g: Geometry, d: Disk, h: Block)
    requires DiskOk(g, d)
    requires var s := Header(d[g.start]); forall i :: 0 <= i < |s| ==> d[s[i]] == d[g.Slot(i)]
    ensures var d' := d[g.start := EncodeHeader(h, [])];
            DiskOk(g, d') && Header(d'[g.start]) == [] && Durable(g, d') == Durable(g, d)
            && Durable(g, d') == Homes(g, d')
  {
    HeadWriteOk(g, d, h, []);
  }
}
