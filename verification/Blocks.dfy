/** Disk blocks as byte strings, and the 32-bit little-endian words that the kernel
    reads and writes in them through `int` and `uint` pointers. */
module Blocks {
  import opened Base

  const WORDS: nat := 256
  const TWO32: nat := 0x1_0000_0000

  type word = x: int | 0 <= x < 0x1_0000_0000
  type Block = b: seq<byte> | |b| == 1024 witness seq(1024, _ => 0)

  function ZeroBlock(): Block {
    seq(1024, _ => 0)
  }

  /** The word at index `i` of a block seen as an array of 256 words. */
  function Word(b: Block, i: nat): (w: word)
    requires i < WORDS
  {
    var b0: int, b1: int, b2: int, b3: int := b[4 * i], b[4 * i + 1], b[4 * i + 2], b[4 * i + 3];
    b0 + 0x100 * b1 + 0x1_0000 * b2 + 0x100_0000 * b3
  }

  /** Byte `k` of a word, least significant first. */
  function ByteOf(w: word, k: nat): byte
    requires k < 4
  {
    if k == 0 then w % 0x100
    else if k == 1 then w / 0x100 % 0x100
    else if k == 2 then w / 0x1_0000 % 0x100
    else w / 0x100_0000
  }

  function SetWord(b: Block, i: nat, w: word): (r: Block)
    requires i < WORDS
  {
    b[4 * i := ByteOf(w, 0)][4 * i + 1 := ByteOf(w, 1)][4 * i + 2 := ByteOf(w, 2)][4 * i + 3 := ByteOf(w, 3)]
  }

  lemma BytesMakeWord(w: word)
    ensures var b0: int, b1: int, b2: int, b3: int := ByteOf(w, 0), ByteOf(w, 1), ByteOf(w, 2), ByteOf(w, 3);
            b0 + 0x100 * b1 + 0x1_0000 * b2 + 0x100_0000 * b3 == w
  {
    var q := w / 0x100;
    var q2 := q / 0x100;
    assert w / 0x1_0000 == q2;
    assert w / 0x100_0000 == q2 / 0x100;
  }

  /** Writing one word changes that word and no other. */
  lemma WordSetWord(b: Block, i: nat, w: word, j: nat)
    requires i < WORDS && j < WORDS
    ensures Word(SetWord(b, i, w), j) == if i == j then w else Word(b, j)
  {
    BytesMakeWord(w);
  }
}
