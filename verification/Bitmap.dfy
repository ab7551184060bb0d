/** The free-block bitmap of kernel/fs.c: bit b of the disk's bitmap blocks says that block b is
    in use. */
module Bitmap {
  import opened Base
  import opened Blocks

  /** The superblock's fields that matter here, and the first data block. */
  datatype Super = Super(size: nat, inodestart: nat, ninodes: nat, bmapstart: nat, datastart: nat)

  /** Inode blocks, then bitmap blocks, then data blocks, as mkfs lays them out. */
  predicate Sane(sb: Super) {
    && 0 < sb.inodestart && sb.inodestart + sb.ninodes <= sb.bmapstart
    && sb.bmapstart + (sb.size + 8191) / 8192 <= sb.datastart <= sb.size < 0x1_0000_0000
  }

  /** Whether bit `i` of a number is set: x & (1 << i). */
  predicate Bit(x: nat, i: nat) {
    if i == 0 then x % 2 == 1 else Bit(x / 2, i - 1)
  }

  function Shift(i: nat): nat {
    if i == 0 then 1 else 2 * Shift(i - 1)
  }

  /** x | (1 << i). */
  function SetBit(x: nat, i: nat): nat {
    if Bit(x, i) then x else x + Shift(i)
  }

  /** x & ~(1 << i). */
  function ClearBit(x: nat, i: nat): nat {
    if Bit(x, i) then BitSize(x, i); x - Shift(i) else x
  }

  lemma {:induction false} BitSize(x: nat, i: nat)
    requires Bit(x, i)
    ensures x >= Shift(i)
  {
    if i > 0 { BitSize(x / 2, i - 1); }
  }

  lemma {:induction false} SetBitBits(x: nat, i: nat, j: nat)
    ensures Bit(SetBit(x, i), j) <==> i == j || Bit(x, j)
    decreases i
  {
    if !Bit(x, i) {
      if i == 0 {
        assert (x + 1) / 2 == x / 2;
      } else {
        assert (x + Shift(i)) / 2 == x / 2 + Shift(i - 1) && (x + Shift(i)) % 2 == x % 2;
        if j > 0 { SetBitBits(x / 2, i - 1, j - 1); }
      }
    }
  }

  lemma {:induction false} ClearBitBits(x: nat, i: nat, j: nat)
    ensures Bit(ClearBit(x, i), j) <==> i != j && Bit(x, j)
    decreases i
  {
    if Bit(x, i) {
      BitSize(x, i);
      if i == 0 {
        assert (x - 1) / 2 == x / 2;
      } else {
        assert (x - Shift(i)) / 2 == x / 2 - Shift(i - 1) && (x - Shift(i)) % 2 == x % 2;
        if j > 0 {
          BitSize(x / 2, i - 1);
          ClearBitBits(x / 2, i - 1, j - 1);
        }
      }
    }
  }

  /** Setting a bit of a k-bit number gives a k-bit number. */
  lemma {:induction false} SetBitRange(x: nat, i: nat, k: nat)
    requires x < Shift(k) && i < k
    ensures SetBit(x, i) < Shift(k)
    decreases k
  {
    if !Bit(x, i) && i > 0 {
      SetBitRange(x / 2, i - 1, k - 1);
      assert (x + Shift(i)) / 2 == x / 2 + Shift(i - 1);
    }
  }

  function SetByte(x: byte, i: nat): (y: byte)
    requires i < 8
    ensures forall j: nat :: j < 8 ==> (Bit(y, j) <==> i == j || Bit(x, j))
  {
    assert forall j: nat :: j < 8 ==> (Bit(SetBit(x, i), j) <==> i == j || Bit(x, j)) by {
      forall j: nat { SetBitBits(x, i, j); }
    }
    assert Shift(8) == 256 by { EightBits(); }
    SetBitRange(x, i, 8);
    SetBit(x, i)
  }

  function ClearByte(x: byte, i: nat): (y: byte)
    requires i < 8
    ensures forall j: nat :: j < 8 ==> (Bit(y, j) <==> i != j && Bit(x, j))
  {
    assert forall j: nat :: j < 8 ==> (Bit(ClearBit(x, i), j) <==> i != j && Bit(x, j)) by {
      forall j: nat { ClearBitBits(x, i, j); }
    }
    ClearBit(x, i)
  }

  lemma EightBits()
    ensures Shift(8) == 256
  {
    assert Shift(4) == 16;
    assert Shift(6) == 64;
  }

  // ------------------------------------------------------------ the map on disk

  type Disk = seq<Block>

  /** BBLOCK(b, sb). */
  function Bblock(sb: Super, b: nat): nat {
    b / 8192 + sb.bmapstart
  }

  /** Bit b % BPB of a bitmap block. */
  predicate MapBit(bk: Block, bi: nat)
    requires bi < 8192
  {
    Bit(bk[bi / 8], bi % 8)
  }

  function Marked(bk: Block, bi: nat): Block
    requires bi < 8192
  {
    bk[bi / 8 := SetByte(bk[bi / 8], bi % 8)]
  }

  function Cleared(bk: Block, bi: nat): Block
    requires bi < 8192
  {
    bk[bi / 8 := ClearByte(bk[bi / 8], bi % 8)]
  }

  lemma MarkedBits(bk: Block, bi: nat, j: nat)
    requires bi < 8192 && j < 8192
    ensures MapBit(Marked(bk, bi), j) <==> j == bi || MapBit(bk, j)
    ensures MapBit(Cleared(bk, bi), j) <==> j != bi && MapBit(bk, j)
  {
    hide Bit, SetBit, ClearBit, Shift;
    assert j == j / 8 * 8 + j % 8 && bi == bi / 8 * 8 + bi % 8;
  }

  /** Block b is in use. */
  predicate Used(sb: Super, d: Disk, b: nat)
    requires Sane(sb) && |d| == sb.size && b < sb.size
  {
    BblockInRange(sb, b);
    MapBit(d[Bblock(sb, b)], b % 8192)
  }

  lemma BblockInRange(sb: Super, b: nat)
    requires Sane(sb) && b < sb.size
    ensures sb.bmapstart <= Bblock(sb, b) < sb.datastart
  {
  }

  lemma SameBlock(sb: Super, b: nat, c: nat)
    ensures Bblock(sb, b) == Bblock(sb, c) && b % 8192 == c % 8192 ==> b == c
  {
  }

  /** Marking or clearing one bit changes the state of one block. */
  lemma MarkOne(sb: Super, d: Disk, b: nat, mark: bool)
    requires Sane(sb) && |d| == sb.size && b < sb.size
    ensures Bblock(sb, b) < |d|
    ensures var m := Bblock(sb, b);
            var d' := d[m := if mark then Marked(d[m], b % 8192) else Cleared(d[m], b % 8192)];
            forall c: nat :: c < sb.size ==> (Used(sb, d', c) <==> if c == b then mark else Used(sb, d, c))
  {
    BblockInRange(sb, b);
    var m := Bblock(sb, b);
    var d' := d[m := if mark then Marked(d[m], b % 8192) else Cleared(d[m], b % 8192)];
    hide MapBit, Marked, Cleared;
    forall c: nat | c < sb.size ensures Used(sb, d', c) <==> if c == b then mark else Used(sb, d, c) {
      BblockInRange(sb, c);
      MarkedBits(d[m], b % 8192, c % 8192);
      SameBlock(sb, b, c);
    }
  }

  /** Blocks outside the bitmap do not matter to it. */
  lemma UsedFrame(sb: Super, d: Disk, d': Disk)
    requires Sane(sb) && |d| == |d'| == sb.size
    requires forall m: nat :: sb.bmapstart <= m < sb.datastart ==> d'[m] == d[m]
    ensures forall c: nat :: c < sb.size ==> (Used(sb, d', c) <==> Used(sb, d, c))
  {
    forall c: nat | c < sb.size ensures Used(sb, d', c) <==> Used(sb, d, c) {
      BblockInRange(sb, c);
    }
  }
}
