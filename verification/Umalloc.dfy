/** user/umalloc.c: the allocator of section 8.7 of The C Programming Language, 2nd edition.
    Addresses count units of one header; the header of a block is its first unit. */
module Umalloc {

  const BASE: nat := 1  // &base, below every address that sbrk returns

  /** The header fields by address, freep (0 is null), and the program break. */
  datatype Arena = Arena(ptr: map<nat, nat>, size: map<nat, nat>, freep: nat, brk: nat)

  /** Which block each unit obtained from sbrk belongs to. */
  type Owner = map<nat, nat>

  // ------------------------------------------------------------ the free list

  ghost predicate Sorted(list: seq<nat>) {
    forall i, j :: 0 <= i < j < |list| ==> list[i] < list[j]
  }

  /** The successor in the circular list. */
  function Next(list: seq<nat>, i: nat): nat
    requires i < |list|
  {
    if i + 1 < |list| then list[i + 1] else list[0]
  }

  /** One address-ordered cycle through `base`, with a single wrap. */
  ghost predicate ListOk(m: Arena, list: seq<nat>) {
    && list != [] && list[0] == BASE && Sorted(list)
    && Linked(m.ptr, list) && Sized(m.size, list)
    && m.freep in list
  }

  ghost predicate Linked(ptr: map<nat, nat>, list: seq<nat>) {
    forall i :: 0 <= i < |list| ==> list[i] in ptr && ptr[list[i]] == Next(list, i)
  }

  /** Only `base` is empty. */
  ghost predicate Sized(size: map<nat, nat>, list: seq<nat>) {
    forall x :: x in list ==> x in size && (size[x] == 0 <==> x == BASE)
  }

  /** A free block does not end where the next one begins. */
  ghost predicate Apart(size: map<nat, nat>, list: seq<nat>, i: nat)
    requires i + 1 < |list|
  {
    list[i] in size && list[i] + size[list[i]] < list[i + 1]
  }

  ghost predicate NoneAdjacent(size: map<nat, nat>, list: seq<nat>) {
    forall i: nat :: i + 1 < |list| ==> Apart(size, list, i)
  }

  // ------------------------------------------------------------ blocks

  /** Allocated blocks have headers with their size and are not on the free list. */
  ghost predicate AllocOk(m: Arena, list: seq<nat>, alloc: map<nat, nat>) {
    forall a :: a in alloc ==> a in m.size && m.size[a] == alloc[a] > 0 && a !in list && a != BASE
  }

  /** All blocks, free and allocated, with their sizes. */
  ghost function Blocks(m: Arena, list: seq<nat>, alloc: map<nat, nat>): map<nat, nat>
    requires ListOk(m, list) && AllocOk(m, list, alloc)
  {
    map b | b in m.size && b != BASE && (b in list || b in alloc) :: m.size[b]
  }

  /** Blocks are disjoint and cover exactly the units obtained. */
  ghost predicate Tiles(blk: map<nat, nat>, own: Owner, brk: nat) {
    Covers(blk, own) && Belong(blk, own, brk)
  }

  ghost predicate Covers(blk: map<nat, nat>, own: Owner) {
    forall b: nat, u: nat :: b in blk && b <= u < b + blk[b] ==> u in own && own[u] == b
  }

  ghost predicate Belong(blk: map<nat, nat>, own: Owner, brk: nat) {
    forall u: nat :: u in own ==> own[u] in blk && own[u] <= u < own[u] + blk[own[u]] && BASE < u < brk
  }

  ghost predicate ArenaOk(m: Arena, list: seq<nat>, alloc: map<nat, nat>, own: Owner) {
    ListOk(m, list) && AllocOk(m, list, alloc) && Tiles(Blocks(m, list, alloc), own, m.brk) && BASE < m.brk
  }

  // ------------------------------------------------------------ inserting and merging

  function InsertAfter(list: seq<nat>, t: nat, b: nat): seq<nat>
    requires t < |list|
  {
    list[..t + 1] + [b] + list[t + 1..]
  }

  ghost function Without(alloc: map<nat, nat>, b: nat): map<nat, nat> {
    map a | a in alloc && a != b :: alloc[a]
  }

  lemma InsertAt(list: seq<nat>, t: nat, b: nat)
    requires t < |list|
    ensures |InsertAfter(list, t, b)| == |list| + 1 && InsertAfter(list, t, b)[0] == list[0]
    ensures forall i :: 0 <= i <= |list| ==>
              InsertAfter(list, t, b)[i] == if i <= t then list[i] else if i == t + 1 then b else list[i - 1]
  {
  }

  lemma InsertMembers(list: seq<nat>, t: nat, b: nat)
    requires t < |list|
    ensures forall x :: x in InsertAfter(list, t, b) <==> x in list || x == b
  {
    var list' := InsertAfter(list, t, b);
    assert list == list[..t + 1] + list[t + 1..];
    assert list'[t + 1] == b;
  }

  lemma InsertSorted(list: seq<nat>, t: nat, b: nat)
    requires Sorted(list) && t < |list| && list[t] < b && (t + 1 < |list| ==> b < list[t + 1])
    ensures Sorted(InsertAfter(list, t, b))
  {
    InsertAt(list, t, b);
    hide InsertAfter;
  }

  lemma InsertLinked(ptr: map<nat, nat>, list: seq<nat>, t: nat, b: nat)
    requires Linked(ptr, list) && Sorted(list) && t < |list| && b !in list
    ensures Linked(ptr[b := Next(list, t)][list[t] := b], InsertAfter(list, t, b))
  {
    InsertAt(list, t, b);
    hide InsertAfter;
    var ptr' := ptr[b := Next(list, t)][list[t] := b];
    var list' := InsertAfter(list, t, b);
    forall i | 0 <= i < |list'| ensures list'[i] in ptr' && ptr'[list'[i]] == Next(list', i) {
      if i < t { assert list[i] < list[t]; } else if i > t + 1 { assert list[t] < list[i - 1]; }
    }
  }

  /** Linking an allocated block into the list, right after its predecessor. */
  lemma InsertOk(m: Arena, list: seq<nat>, alloc: map<nat, nat>, own: Owner, t: nat, b: nat)
    requires ArenaOk(m, list, alloc, own) && b in alloc && t < |list| && list[t] < b &&
             (t + 1 < |list| ==> b < list[t + 1])
    ensures var m' := m.(ptr := m.ptr[b := Next(list, t)][list[t] := b]);
            ArenaOk(m', InsertAfter(list, t, b), Without(alloc, b), own)
  {
    hide InsertAfter, Linked, Sorted, Next;
    var m' := m.(ptr := m.ptr[b := Next(list, t)][list[t] := b]);
    var list', alloc' := InsertAfter(list, t, b), Without(alloc, b);
    InsertLinked(m.ptr, list, t, b);
    InsertSorted(list, t, b);
    InsertMembers(list, t, b);
    InsertAt(list, t, b);
    assert Blocks(m', list', alloc') == Blocks(m, list, alloc);
  }

  function RemoveAt(list: seq<nat>, i: nat): seq<nat>
    requires i < |list|
  {
    list[..i] + list[i + 1..]
  }

  lemma RemoveFacts(list: seq<nat>, i: nat)
    requires 0 < i < |list| && Sorted(list)
    ensures |RemoveAt(list, i)| == |list| - 1 && RemoveAt(list, i)[0] == list[0] && Sorted(RemoveAt(list, i))
    ensures forall j :: 0 <= j < |list| - 1 ==> RemoveAt(list, i)[j] == if j < i then list[j] else list[j + 1]
    ensures forall x :: x in RemoveAt(list, i) <==> x in list && x != list[i]
  {
    var r := RemoveAt(list, i);
    forall x | x in list && x != list[i] ensures x in r {
      var j :| 0 <= j < |list| && list[j] == x;
      assert r[if j < i then j else j - 1] == x;
    }
    forall x | x in r ensures x in list && x != list[i] {
      var j :| 0 <= j < |r| && r[j] == x;
      assert x == list[if j < i then j else j + 1];
    }
  }

  lemma RemoveLinkedAt(ptr: map<nat, nat>, list: seq<nat>, i: nat, j: nat)
    requires Linked(ptr, list) && 0 < i < |list| && j < |list| - 1 && (j < i - 1 ==> list[j] < list[i - 1]) &&
             (j >= i ==> list[i - 1] < list[j + 1])
    ensures var r := RemoveAt(list, i);
            var ptr' := ptr[list[i - 1] := Next(list, i)];
            r[j] in ptr' && ptr'[r[j]] == Next(r, j)
  {
    var k := if j < i then j else j + 1;
    assert RemoveAt(list, i)[j] == list[k];
    assert ptr[list[k]] == Next(list, k);
  }

  lemma RemoveLinked(ptr: map<nat, nat>, list: seq<nat>, i: nat)
    requires Linked(ptr, list) && Sorted(list) && 0 < i < |list|
    ensures Linked(ptr[list[i - 1] := Next(list, i)], RemoveAt(list, i))
  {
    hide Next;
    forall j | 0 <= j < |list| - 1
      ensures var r := RemoveAt(list, i);
              var ptr' := ptr[list[i - 1] := Next(list, i)];
              r[j] in ptr' && ptr'[r[j]] == Next(r, j)
    {
      RemoveLinkedAt(ptr, list, i, j);
    }
  }

  /** Units of one block given to another. */
  ghost function Regard(own: Owner, b: nat, c: nat): Owner {
    map u | u in own :: if own[u] == b then c else own[u]
  }

  /** Joining two free blocks of which the second begins where the first ends. */
  lemma MergeOk(m: Arena, list: seq<nat>, alloc: map<nat, nat>, own: Owner, i: nat)
    requires ArenaOk(m, list, alloc, own) && 0 < i < |list| && list[i - 1] + m.size[list[i - 1]] == list[i]
    requires m.freep != list[i]
    ensures ArenaOk(Merged(m, list, i), RemoveAt(list, i), alloc, Regard(own, list[i], list[i - 1]))
  {
    hide ListOk, AllocOk, Blocks, Tiles, RemoveAt;
    MergeList(m, list, alloc, i);
    MergeBlocks(m, list, alloc, i);
    TilesMerge(Blocks(m, list, alloc), own, m.brk, list[i - 1], list[i]);
  }

  /** The arena with block `i` of the list joined to the one before it. */
  ghost function Merged(m: Arena, list: seq<nat>, i: nat): Arena
    requires 0 < i < |list| && list[i - 1] in m.size && list[i] in m.size
  {
    m.(ptr := m.ptr[list[i - 1] := Next(list, i)],
       size := m.size[list[i - 1] := m.size[list[i - 1]] + m.size[list[i]]])
  }

  lemma MergeList(m: Arena, list: seq<nat>, alloc: map<nat, nat>, i: nat)
    requires ListOk(m, list) && AllocOk(m, list, alloc) && 0 < i < |list| &&
             list[i - 1] + m.size[list[i - 1]] == list[i] && m.freep != list[i]
    ensures ListOk(Merged(m, list, i), RemoveAt(list, i)) && AllocOk(Merged(m, list, i), RemoveAt(list, i), alloc)
    ensures list[i - 1] != BASE && list[i - 1] in list && list[i] in list && list[i] != BASE && list[i - 1] < list[i]
  {
    hide RemoveAt, Linked, Next;
    RemoveFacts(list, i);
    RemoveLinked(m.ptr, list, i);
    assert list[i - 1] in list && list[i] in list && list[i - 1] < list[i];
  }

  lemma MergeBlocks(m: Arena, list: seq<nat>, alloc: map<nat, nat>, i: nat)
    requires ListOk(m, list) && AllocOk(m, list, alloc) && 0 < i < |list| &&
             list[i - 1] + m.size[list[i - 1]] == list[i] && m.freep != list[i]
    requires ListOk(Merged(m, list, i), RemoveAt(list, i)) && AllocOk(Merged(m, list, i), RemoveAt(list, i), alloc)
    requires list[i - 1] != BASE && list[i] != BASE
    ensures var blk := Blocks(m, list, alloc);
            list[i - 1] in blk && list[i] in blk && blk[list[i - 1]] == m.size[list[i - 1]] && list[i - 1] != list[i]
            && Blocks(Merged(m, list, i), RemoveAt(list, i), alloc) == Joined(blk, list[i - 1], list[i])
  {
    hide RemoveAt, Linked, Next;
    RemoveFacts(list, i);
    assert list[i - 1] in list && list[i] in list && list[i - 1] < list[i];
    hide Sorted, Sized, ListOk;
    var after, joined := Blocks(Merged(m, list, i), RemoveAt(list, i), alloc),
                         Joined(Blocks(m, list, alloc), list[i - 1], list[i]);
    forall x ensures x in after <==> x in joined { }
    forall x | x in after ensures after[x] == joined[x] { }
  }

  ghost function Joined(blk: map<nat, nat>, a: nat, b: nat): map<nat, nat>
    requires a in blk && b in blk
  {
    map x | x in blk && x != b :: if x == a then blk[a] + blk[b] else blk[x]
  }

  lemma JoinBelong(blk: map<nat, nat>, own: Owner, brk: nat, a: nat, b: nat)
    requires Belong(blk, own, brk) && a in blk && b in blk && a + blk[a] == b && a != b
    ensures Belong(Joined(blk, a, b), Regard(own, b, a), brk)
  {
  }

  lemma TilesMerge(blk: map<nat, nat>, own: Owner, brk: nat, a: nat, b: nat)
    requires Tiles(blk, own, brk) && a in blk && b in blk && a + blk[a] == b && a != b
    ensures Tiles(Joined(blk, a, b), Regard(own, b, a), brk)
  {
    hide Belong;
    JoinBelong(blk, own, brk, a, b);
    var blk', own' := Joined(blk, a, b), Regard(own, b, a);
    forall x: nat, u: nat | x in blk' && x <= u < x + blk'[x] ensures u in own' && own'[u] == x {
      if x == a && u >= b { assert own[u] == b; } else { assert own[u] == x; }
    }
  }

  // ------------------------------------------------------------ gaps between free blocks

  /** Two blocks do not overlap. */
  lemma TilesApart(blk: map<nat, nat>, own: Owner, brk: nat, x: nat, y: nat)
    requires Tiles(blk, own, brk) && x in blk && y in blk && x < y && blk[y] > 0
    ensures x + blk[x] <= y
  {
    assert own[y] == y;
  }

  /** Where an allocated block lies between its free neighbours. */
  lemma Neighbours(m: Arena, list: seq<nat>, alloc: map<nat, nat>, own: Owner, t: nat, b: nat)
    requires ArenaOk(m, list, alloc, own) && b in alloc && t < |list| && list[t] < b &&
             (t + 1 < |list| ==> b < list[t + 1])
    ensures list[t] in m.size && b in m.size && list[t] + m.size[list[t]] <= b &&
            (t + 1 < |list| ==> b + m.size[b] <= list[t + 1])
  {
    var blk := Blocks(m, list, alloc);
    assert list[t] in list && (t + 1 < |list| ==> list[t + 1] in list);
    hide Tiles, Linked;
    assert b in blk && blk[b] == m.size[b];
    if list[t] != BASE { TilesApart(blk, own, m.brk, list[t], b); }
    if t + 1 < |list| {
      assert list[0] < list[t + 1];
      TilesApart(blk, own, m.brk, b, list[t + 1]);
    }
  }

  /** Free blocks are apart except perhaps at two positions. */
  ghost predicate ApartBut(size: map<nat, nat>, list: seq<nat>, a: nat, b: nat) {
    forall i: nat :: i + 1 < |list| && i != a && i != b ==> Apart(size, list, i)
  }

  lemma InsertApart(size: map<nat, nat>, list: seq<nat>, t: nat, b: nat)
    requires NoneAdjacent(size, list) && t < |list|
    ensures ApartBut(size, InsertAfter(list, t, b), t, t + 1)
  {
    var list' := InsertAfter(list, t, b);
    forall i: nat | i + 1 < |list'| && i != t && i != t + 1 ensures Apart(size, list', i) {
      if i < t {
        assert list'[i] == list[i] && list'[i + 1] == list[i + 1] && Apart(size, list, i);
      } else {
        assert list'[i] == list[i - 1] && list'[i + 1] == list[i] && Apart(size, list, i - 1);
      }
    }
  }

  /** Joining block `i` to the one before it closes the gap between them and moves no other. */
  lemma MergeApart(size: map<nat, nat>, list: seq<nat>, i: nat, a: nat, n: nat)
    requires Sorted(list) && 0 < i < |list| && ApartBut(size, list, a, i - 1) && a <= i - 1
    requires list[i] in size && list[i - 1] + n == list[i] + size[list[i]]
    ensures var x := if a == i - 1 then |list| else a;
            ApartBut(size[list[i - 1] := n], RemoveAt(list, i), x, x)
  {
    var list', size' := RemoveAt(list, i), size[list[i - 1] := n];
    forall j: nat | j + 1 < |list| - 1 && (j != a || a == i - 1) ensures Apart(size', list', j) {
      if j < i - 1 {
        assert list'[j] == list[j] && list'[j + 1] == list[j + 1] && list[j] < list[i - 1] && Apart(size, list, j);
      } else {
        assert list'[j + 1] == list[j + 2] && Apart(size, list, j + 1);
        if j > i - 1 { assert list'[j] == list[j + 1] && list[i - 1] < list[j + 1]; }
          else { assert list'[j] == list[i - 1]; }
      }
    }
  }

  // ------------------------------------------------------------ free

  /** `t` is the place in the list after which block `b` belongs. */
  ghost predicate PlaceOf(list: seq<nat>, b: nat, t: nat) {
    t < |list| && list[t] < b && (t + 1 < |list| ==> b < list[t + 1])
  }

  lemma {:induction false} FindPlace(list: seq<nat>, b: nat) returns (t: nat)
    requires list != [] && list[0] < b && b !in list && Sorted(list)
    ensures PlaceOf(list, b, t)
  {
    t := 0;
    while t + 1 < |list| && list[t + 1] < b
      invariant t < |list| && list[t] < b
    {
      t := t + 1;
    }
    assert t + 1 < |list| ==> list[t + 1] in list;
  }

  /** The outcome of free: the list with the block linked in and joined to its neighbours. */
  ghost predicate Freed(m: Arena, list: seq<nat>, alloc: map<nat, nat>, own: Owner, b: nat,
                        m': Arena, list': seq<nat>, own': Owner) {
    && ArenaOk(m', list', Without(alloc, b), own') && NoneAdjacent(m'.size, list') && own'.Keys == own.Keys &&
       m'.brk == m.brk
  }

  /** What free writes, once the place is found. */
  function FreeAt(m: Arena, p: nat, b: nat): Arena
    requires p in m.ptr && p in m.size && b in m.size && m.ptr[p] in m.ptr && m.ptr[p] in m.size
  {
    var q := m.ptr[p];
    var up := b + m.size[b] == q;
    var bsize := if up then m.size[b] + m.size[q] else m.size[b];
    var bptr := if up then m.ptr[q] else q;
    if p + m.size[p] == b then
      m.(ptr := m.ptr[b := bptr][p := bptr], size := m.size[b := bsize][p := m.size[p] + bsize], freep := p)
    else
      m.(ptr := m.ptr[b := bptr][p := b], size := m.size[b := bsize], freep := p)
  }

  lemma FreeStart(m: Arena, list: seq<nat>, alloc: map<nat, nat>, own: Owner, b: nat, t: nat) returns (m1: Arena)
    requires ArenaOk(m, list, alloc, own) && NoneAdjacent(m.size, list) && b in alloc && PlaceOf(list, b, t)
    ensures list[t] in m.ptr && list[t] in m.size && b in m.size && m.size[b] > 0 && b > BASE &&
            Next(list, t) == m.ptr[list[t]]
    ensures m1 == m.(ptr := m.ptr[b := Next(list, t)][list[t] := b], freep := list[t])
    ensures ArenaOk(m1, InsertAfter(list, t, b), Without(alloc, b), own) &&
            ApartBut(m.size, InsertAfter(list, t, b), t, t + 1)
    ensures list[t] + m.size[list[t]] <= b && (t + 1 < |list| ==> b + m.size[b] <= list[t + 1])
  {
    hide Tiles, Blocks, InsertAfter, Apart;
    var p := list[t];
    Neighbours(m, list, alloc, own, t, b);
    var m0 := m.(freep := p);
    Refreep(m, list, alloc, own, p);
    InsertOk(m0, list, alloc, own, t, b);
    InsertApart(m.size, list, t, b);
    m1 := m0.(ptr := m0.ptr[b := Next(list, t)][p := b]);
    if t > 0 { assert list[0] < list[t]; }
  }

  lemma Refreep(m: Arena, list: seq<nat>, alloc: map<nat, nat>, own: Owner, p: nat)
    requires ArenaOk(m, list, alloc, own) && p in list
    ensures ArenaOk(m.(freep := p), list, alloc, own)
  {
    hide Tiles;
    assert Blocks(m.(freep := p), list, alloc) == Blocks(m, list, alloc);
  }

  /** The upper join of free, at position `i` of the list, or none. */
  lemma FreeUp(m: Arena, list: seq<nat>, alloc: map<nat, nat>, own: Owner, i: nat, q: nat)
    returns (m': Arena, list': seq<nat>, own': Owner)
    requires ArenaOk(m, list, alloc, own) && 0 < i < |list| && ApartBut(m.size, list, i - 1, i) &&
             m.freep == list[i - 1]
    requires i + 1 < |list| ==> list[i] + m.size[list[i]] <= list[i + 1]
    requires q == Next(list, i) && q in m.ptr && q in m.size
    ensures m' == if list[i] + m.size[list[i]] == q
                  then m.(ptr := m.ptr[list[i] := m.ptr[q]], size := m.size[list[i] := m.size[list[i]] + m.size[q]])
                    else m
    ensures ArenaOk(m', list', alloc, own') && own'.Keys == own.Keys && i < |list'|
    ensures list'[i - 1] == list[i - 1] && list'[i] == list[i] && ApartBut(m'.size, list', i - 1, i - 1)
  {
    hide Tiles, Blocks, RemoveAt, Apart, ApartBut, AllocOk, ArenaOk, Sorted, Merged;
    ListFacts(m, list, alloc, own, i);
    Wraps(m, list, alloc, own, i);
    m', list', own' := m, list, own;
    if i + 1 < |list| && list[i] + m.size[list[i]] == q {
      ListFacts(m, list, alloc, own, i + 1);
      MergeOk(m, list, alloc, own, i + 1);
      MergeApart(m.size, list, i + 1, i - 1, m.size[list[i]] + m.size[q]);
      MergedIs(m, list, i + 1);
      m', list', own' := Merged(m, list, i + 1), RemoveAt(list, i + 1), Regard(own, list[i + 1], list[i]);
      RemoveSpot(list, i);
    } else {
      GapThere(m.size, list, i);
    }
  }

  lemma Wraps(m: Arena, list: seq<nat>, alloc: map<nat, nat>, own: Owner, i: nat)
    requires ArenaOk(m, list, alloc, own) && 0 < i < |list|
    ensures list[0] < list[i]
  {
  }

  lemma RemoveSpot(list: seq<nat>, i: nat)
    requires 0 < i && i + 1 < |list|
    ensures var r := RemoveAt(list, i + 1);
            |r| == |list| - 1 && r[i - 1] == list[i - 1] && r[i] == list[i]
  {
  }

  lemma GapThere(size: map<nat, nat>, list: seq<nat>, i: nat)
    requires 0 < i && ApartBut(size, list, i - 1, i) && i < |list| && list[i] in size
    requires i + 1 < |list| ==> list[i] + size[list[i]] < list[i + 1]
    ensures ApartBut(size, list, i - 1, i - 1)
  {
  }

  /** The lower join of free, or none. */
  lemma FreeDown(m: Arena, list: seq<nat>, alloc: map<nat, nat>, own: Owner, i: nat)
    returns (m': Arena, list': seq<nat>, own': Owner)
    requires ArenaOk(m, list, alloc, own) && 0 < i < |list| && ApartBut(m.size, list, i - 1, i - 1) &&
             m.freep == list[i - 1]
    requires list[i - 1] + m.size[list[i - 1]] <= list[i]
    ensures list[i] in m.ptr && list[i] in m.size
    ensures m' == if list[i - 1] + m.size[list[i - 1]] == list[i]
                  then m.(ptr := m.ptr[list[i - 1] := m.ptr[list[i]]],
                    size := m.size[list[i - 1] := m.size[list[i - 1]] + m.size[list[i]]]) else m
    ensures ArenaOk(m', list', alloc, own') && own'.Keys == own.Keys && NoneAdjacent(m'.size, list')
  {
    hide Tiles, Blocks, RemoveAt, Apart, ApartBut, NoneAdjacent, AllocOk, ArenaOk, Sorted, Next, Merged;
    ListFacts(m, list, alloc, own, i - 1);
    ListFacts(m, list, alloc, own, i);
    m', list', own' := m, list, own;
    if list[i - 1] + m.size[list[i - 1]] == list[i] {
      MergeOk(m, list, alloc, own, i);
      MergeApart(m.size, list, i, i - 1, m.size[list[i - 1]] + m.size[list[i]]);
      MergedIs(m, list, i);
      m', list', own' := Merged(m, list, i), RemoveAt(list, i), Regard(own, list[i], list[i - 1]);
      AllGaps(m'.size, list', |list|);
    } else {
      GapAll(m.size, list, i);
    }
  }

  lemma ListFacts(m: Arena, list: seq<nat>, alloc: map<nat, nat>, own: Owner, i: nat)
    requires ArenaOk(m, list, alloc, own) && i < |list|
    ensures Sorted(list) && list != [] && list[i] in m.ptr && list[i] in m.size && m.ptr[list[i]] == Next(list, i)
    ensures i > 0 ==> list[i - 1] < list[i]
  {
    hide Tiles;
  }

  lemma MergedIs(m: Arena, list: seq<nat>, i: nat)
    requires 0 < i < |list| && list[i - 1] in m.size && list[i] in m.size
    ensures Merged(m, list, i) ==
            m.(ptr := m.ptr[list[i - 1] := Next(list, i)],
            size := m.size[list[i - 1] := m.size[list[i - 1]] + m.size[list[i]]])
    ensures |RemoveAt(list, i)| == |list| - 1
  {
  }

  lemma AllGaps(size: map<nat, nat>, list: seq<nat>, x: nat)
    requires ApartBut(size, list, x, x) && x >= |list|
    ensures NoneAdjacent(size, list)
  {
  }

  lemma GapAll(size: map<nat, nat>, list: seq<nat>, i: nat)
    requires 0 < i < |list| && ApartBut(size, list, i - 1, i - 1) && list[i - 1] in size &&
             list[i - 1] + size[list[i - 1]] < list[i]
    ensures NoneAdjacent(size, list)
  {
  }

  lemma FreeAtOk(m: Arena, list: seq<nat>, alloc: map<nat, nat>, own: Owner, b: nat, t: nat)
    returns (list': seq<nat>, own': Owner)
    requires ArenaOk(m, list, alloc, own) && NoneAdjacent(m.size, list) && b in alloc && PlaceOf(list, b, t)
    ensures list[t] in m.ptr && list[t] in m.size && b in m.size && m.ptr[list[t]] in m.ptr && m.ptr[list[t]] in m.size
    ensures Freed(m, list, alloc, own, b, FreeAt(m, list[t], b), list', own')
  {
    hide Tiles, Blocks, InsertAfter, Apart, ApartBut, NoneAdjacent, Sorted, ArenaOk;
    var p := list[t];
    var m1 := FreeStart(m, list, alloc, own, b, t);
    NextKnown(m, list, alloc, own, t);
    var list1, alloc1 := InsertAfter(list, t, b), Without(alloc, b);
    InsertSpot(list, t, b);
    var q := m.ptr[p];
    var m2, list2, own2 := FreeUp(m1, list1, alloc1, own, t + 1, q);
    var m3, list3, own3 := FreeDown(m2, list2, alloc1, own2, t + 1);
    list', own' := list3, own3;
    var r := FreeAt(m, p, b);
    assert m3.ptr == r.ptr;
    assert m3.size == r.size;
  }

  lemma InsertSpot(list: seq<nat>, t: nat, b: nat)
    requires t < |list|
    ensures var r := InsertAfter(list, t, b);
            && |r| == |list| + 1 && r[t] == list[t] && r[t + 1] == b && Next(r, t + 1) == Next(list, t)
            && (t + 2 < |r| ==> r[t + 2] == list[t + 1])
  {
  }

  lemma NextKnown(m: Arena, list: seq<nat>, alloc: map<nat, nat>, own: Owner, t: nat)
    requires ArenaOk(m, list, alloc, own) && t < |list|
    ensures Next(list, t) in m.ptr && Next(list, t) in m.size
  {
    hide Tiles;
    assert list[0] in list && (t + 1 < |list| ==> list[t + 1] in list);
  }

  /** Where the freed units are now: in the block at freep or in the one after it. */
  lemma FreedBig(m: Arena, list: seq<nat>, alloc: map<nat, nat>, own: Owner, b: nat, t: nat, list': seq<nat>,
                 own': Owner)
    requires ArenaOk(m, list, alloc, own) && b in alloc && PlaceOf(list, b, t)
    requires list[t] in m.ptr && list[t] in m.size && b in m.size && m.ptr[list[t]] in m.ptr && m.ptr[list[t]] in m.size
    requires Freed(m, list, alloc, own, b, FreeAt(m, list[t], b), list', own')
    ensures HasRoom(FreeAt(m, list[t], b), alloc[b])
  {
    hide Tiles, Linked, Sorted;
    var p := list[t];
    assert p in list;
    var m' := FreeAt(m, p, b);
    if p + m.size[p] == b { assert m'.size[p] >= alloc[b]; } else { assert m'.ptr[p] == b && m'.size[b] >= alloc[b]; }
  }

  /** The block at freep, or the one after it, has `n` units. */
  ghost predicate HasRoom(m: Arena, n: nat) {
    || (m.freep in m.size && m.size[m.freep] >= n)
    || (m.freep in m.ptr && m.ptr[m.freep] in m.size && m.size[m.ptr[m.freep]] >= n)
  }

  // ------------------------------------------------------------ malloc

  /** A block handed out whole. */
  function Taken(m: Arena, list: seq<nat>, i: nat): Arena
    requires 0 < i < |list| && list[i] in m.ptr
  {
    m.(ptr := m.ptr[list[i - 1] := m.ptr[list[i]]], freep := list[i - 1])
  }

  lemma TakeOk(m: Arena, list: seq<nat>, alloc: map<nat, nat>, own: Owner, i: nat)
    requires ArenaOk(m, list, alloc, own) && NoneAdjacent(m.size, list) && 0 < i < |list|
    ensures list[i] in m.size && list[i] in m.ptr && list[i] !in alloc
    ensures ArenaOk(Taken(m, list, i), RemoveAt(list, i), alloc[list[i] := m.size[list[i]]], own)
    ensures NoneAdjacent(m.size, RemoveAt(list, i))
  {
    hide ListOk, AllocOk, Tiles, RemoveAt, NoneAdjacent, Blocks;
    ListFacts(m, list, alloc, own, i);
    TakeList(m, list, alloc, i);
    TakeBlocks(m, list, alloc, i);
    RemoveApart(m.size, list, i);
  }

  lemma TakeList(m: Arena, list: seq<nat>, alloc: map<nat, nat>, i: nat)
    requires ListOk(m, list) && AllocOk(m, list, alloc) && 0 < i < |list|
    ensures list[i] in m.size && list[i] in m.ptr && list[i] !in alloc
    ensures ListOk(Taken(m, list, i), RemoveAt(list, i))
    ensures AllocOk(Taken(m, list, i), RemoveAt(list, i), alloc[list[i] := m.size[list[i]]])
  {
    hide RemoveAt, Next;
    assert list[i] in list && list[i - 1] in list && list[i - 1] < list[i] && list[0] < list[i];
    RemoveFacts(list, i);
    RemoveLinked(m.ptr, list, i);
    assert m.ptr[list[i]] == Next(list, i);
    hide Linked, Sorted;
  }

  lemma TakeBlocks(m: Arena, list: seq<nat>, alloc: map<nat, nat>, i: nat)
    requires ListOk(m, list) && AllocOk(m, list, alloc) && 0 < i < |list| && list[i] in m.size && list[i] in m.ptr
    requires ListOk(Taken(m, list, i), RemoveAt(list, i))
    requires AllocOk(Taken(m, list, i), RemoveAt(list, i), alloc[list[i] := m.size[list[i]]])
    ensures Blocks(Taken(m, list, i), RemoveAt(list, i), alloc[list[i] := m.size[list[i]]]) == Blocks(m, list, alloc)
  {
    hide RemoveAt, Linked, Sized;
    RemoveFacts(list, i);
    assert list[i] in list;
  }

  lemma RemoveApart(size: map<nat, nat>, list: seq<nat>, i: nat)
    requires NoneAdjacent(size, list) && Sorted(list) && 0 < i < |list|
    ensures NoneAdjacent(size, RemoveAt(list, i))
  {
    var r := RemoveAt(list, i);
    forall j: nat | j + 1 < |r| ensures Apart(size, r, j) {
      if j < i - 1 {
        assert r[j] == list[j] && r[j + 1] == list[j + 1] && Apart(size, list, j);
      } else if j == i - 1 {
        assert r[j] == list[j] && r[j + 1] == list[j + 2] && Apart(size, list, j) && list[i] < list[i + 1];
      } else {
        assert r[j] == list[j + 1] && r[j + 1] == list[j + 2] && Apart(size, list, j + 1);
      }
    }
  }

  /** The tail of a block handed out. */
  ghost function Tail(own: Owner, p: nat, q: nat): Owner {
    map u | u in own :: if own[u] == p && u >= q then q else own[u]
  }

  /** A block `p` of which the last `n` units are handed out. */
  function Split(m: Arena, p: nat, n: nat, freep: nat): Arena
    requires p in m.size && n <= m.size[p]
  {
    m.(size := m.size[p := m.size[p] - n][p + m.size[p] - n := n], freep := freep)
  }

  lemma SplitOk(m: Arena, list: seq<nat>, alloc: map<nat, nat>, own: Owner, i: nat, n: nat, freep: nat)
    requires ArenaOk(m, list, alloc, own) && NoneAdjacent(m.size, list) && 0 < i < |list| && freep in list
    requires list[i] in m.size && 0 < n < m.size[list[i]]
    ensures var q := list[i] + m.size[list[i]] - n;
            && q !in alloc && q !in list
            && ArenaOk(Split(m, list[i], n, freep), list, alloc[q := n], Tail(own, list[i], q))
            && NoneAdjacent(Split(m, list[i], n, freep).size, list)
  {
    hide ListOk, AllocOk, Tiles, NoneAdjacent, Split, Tail;
    var p := list[i];
    var q: nat := p + m.size[p] - n;
    NotBase(m, list, i);
    assert p in Blocks(m, list, alloc);
    NotABlock(m, list, alloc, own, p, q);
    SplitTiles(Blocks(m, list, alloc), own, m.brk, p, q, n);
    SplitList(m, list, alloc, p, q, n, freep);
    SplitApart(m.size, list, i, q, n);
    SplitIs(m, p, n, freep);
    SplitBlocks(m, list, alloc, p, q, n, freep);
  }

  lemma SplitIs(m: Arena, p: nat, n: nat, freep: nat)
    requires p in m.size && n <= m.size[p]
    ensures Split(m, p, n, freep).brk == m.brk &&
            Split(m, p, n, freep).size == m.size[p := m.size[p] - n][p + m.size[p] - n := n]
  {
  }

  lemma SplitBlocks(m: Arena, list: seq<nat>, alloc: map<nat, nat>, p: nat, q: nat, n: nat, freep: nat)
    requires ListOk(m, list) && AllocOk(m, list, alloc) && p in list && p in m.size && 0 < n < m.size[p]
    requires q == p + m.size[p] - n && q != BASE && p != BASE
    requires ListOk(Split(m, p, n, freep), list) && AllocOk(Split(m, p, n, freep), list, alloc[q := n])
    ensures Blocks(Split(m, p, n, freep), list, alloc[q := n]) == Halved(Blocks(m, list, alloc), p, q, n)
  {
    hide Linked, Sorted, Sized, ListOk;
  }

  lemma SplitList(m: Arena, list: seq<nat>, alloc: map<nat, nat>, p: nat, q: nat, n: nat, freep: nat)
    requires ListOk(m, list) && AllocOk(m, list, alloc) && p in list && freep in list && p in m.size &&
             0 < n < m.size[p]
    requires q == p + m.size[p] - n && q !in list && q !in alloc && q != BASE && p != BASE
    ensures ListOk(Split(m, p, n, freep), list) && AllocOk(Split(m, p, n, freep), list, alloc[q := n])
  {
    hide Linked, Sorted;
  }

  lemma NotBase(m: Arena, list: seq<nat>, i: nat)
    requires ListOk(m, list) && 0 < i < |list|
    ensures list[i] != BASE && list[i] in list && list[i] > BASE
  {
  }

  lemma UnitOf(blk: map<nat, nat>, own: Owner, brk: nat, b: nat, u: nat)
    requires Tiles(blk, own, brk) && b in blk && b <= u < b + blk[b]
    ensures u in own && own[u] == b && u < brk
  {
  }

  lemma NotABlock(m: Arena, list: seq<nat>, alloc: map<nat, nat>, own: Owner, p: nat, q: nat)
    requires ArenaOk(m, list, alloc, own) && p in Blocks(m, list, alloc) && p < q < p + m.size[p] && p > BASE
    ensures q !in alloc && q !in list && q != BASE
  {
    hide Linked, Sorted, Tiles;
    var blk := Blocks(m, list, alloc);
    UnitOf(blk, own, m.brk, p, q);
    if q in blk { UnitOf(blk, own, m.brk, q, q); }
  }

  ghost function Halved(blk: map<nat, nat>, p: nat, q: nat, n: nat): map<nat, nat>
    requires p in blk && n <= blk[p]
  {
    var rest: map<nat, nat> := blk[p := blk[p] - n];
    rest[q := n]
  }

  lemma SplitTiles(blk: map<nat, nat>, own: Owner, brk: nat, p: nat, q: nat, n: nat)
    requires Tiles(blk, own, brk) && p in blk && 0 < n < blk[p] && q == p + blk[p] - n
    ensures q !in blk || blk[q] == 0
    ensures q !in blk ==> Tiles(Halved(blk, p, q, n), Tail(own, p, q), brk)
  {
    UnitOf(blk, own, brk, p, q);
    if q !in blk {
      SplitCovers(blk, own, p, q, n);
      SplitBelong(blk, own, brk, p, q, n);
    } else if blk[q] > 0 {
      UnitOf(blk, own, brk, q, q);
    }
  }

  lemma SplitCovers(blk: map<nat, nat>, own: Owner, p: nat, q: nat, n: nat)
    requires Covers(blk, own) && p in blk && 0 < n < blk[p] && q == p + blk[p] - n && q !in blk
    ensures Covers(Halved(blk, p, q, n), Tail(own, p, q))
  {
    var blk', own' := Halved(blk, p, q, n), Tail(own, p, q);
    forall b: nat, u: nat | b in blk' && b <= u < b + blk'[b] ensures u in own' && own'[u] == b {
      if b == q { assert p <= u < p + blk[p]; } else { assert b in blk && b <= u < b + blk[b]; }
    }
  }

  lemma SplitBelong(blk: map<nat, nat>, own: Owner, brk: nat, p: nat, q: nat, n: nat)
    requires Belong(blk, own, brk) && p in blk && 0 < n < blk[p] && q == p + blk[p] - n && q !in blk
    ensures Belong(Halved(blk, p, q, n), Tail(own, p, q), brk)
  {
  }

  lemma SplitApart(size: map<nat, nat>, list: seq<nat>, i: nat, q: nat, n: nat)
    requires NoneAdjacent(size, list) && 0 < i < |list| && list[i] in size && n <= size[list[i]] && q !in list
    ensures NoneAdjacent(size[list[i] := size[list[i]] - n][q := n], list)
  {
    var size' := size[list[i] := size[list[i]] - n][q := n];
    forall j: nat | j + 1 < |list| ensures Apart(size', list, j) {
      assert Apart(size, list, j) && list[j] in list;
    }
  }

  // ------------------------------------------------------------ morecore

  ghost function NewUnits(own: Owner, hp: nat, nu: nat): Owner {
    map u: nat | u < hp + nu && (u in own || hp <= u) :: if hp <= u then hp else own[u]
  }

  /** A region from sbrk, above everything before it, as one allocated block. */
  function Grown(m: Arena, hp: nat, nu: nat): Arena {
    m.(size := m.size[hp := nu], brk := hp + nu)
  }

  lemma GrowOk(m: Arena, list: seq<nat>, alloc: map<nat, nat>, own: Owner, hp: nat, nu: nat)
    requires ArenaOk(m, list, alloc, own) && hp >= m.brk && nu > 0 && NoneAdjacent(m.size, list)
    ensures hp !in list && hp !in alloc
    ensures ArenaOk(Grown(m, hp, nu), list, alloc[hp := nu], NewUnits(own, hp, nu)) &&
            NoneAdjacent(Grown(m, hp, nu).size, list)
    ensures forall u :: u in NewUnits(own, hp, nu) <==> u in own || hp <= u < hp + nu
  {
    hide ListOk, AllocOk, Tiles, NoneAdjacent, NewUnits;
    BelowBreak(m, list, alloc, own, hp);
    GrowTiles(Blocks(m, list, alloc), own, m.brk, hp, nu);
    GrowList(m, list, alloc, hp, nu);
    assert Blocks(Grown(m, hp, nu), list, alloc[hp := nu]) == Blocks(m, list, alloc)[hp := nu];
    GrowApart(m.size, list, hp, nu);
  }

  lemma GrowList(m: Arena, list: seq<nat>, alloc: map<nat, nat>, hp: nat, nu: nat)
    requires ListOk(m, list) && AllocOk(m, list, alloc) && hp !in list && hp !in alloc && hp > BASE && nu > 0
    ensures ListOk(Grown(m, hp, nu), list) && AllocOk(Grown(m, hp, nu), list, alloc[hp := nu])
  {
    hide Linked, Sorted;
  }

  lemma GrowApart(size: map<nat, nat>, list: seq<nat>, hp: nat, nu: nat)
    requires NoneAdjacent(size, list) && hp !in list
    ensures NoneAdjacent(size[hp := nu], list)
  {
    var size' := size[hp := nu];
    forall j: nat | j + 1 < |list| ensures Apart(size', list, j) {
      assert Apart(size, list, j) && list[j] in list;
    }
  }

  lemma BelowBreak(m: Arena, list: seq<nat>, alloc: map<nat, nat>, own: Owner, hp: nat)
    requires ArenaOk(m, list, alloc, own) && hp >= m.brk
    ensures hp !in list && hp !in alloc && hp > BASE
  {
    hide Linked, Sorted, Tiles;
    var blk := Blocks(m, list, alloc);
    if hp in blk { UnitOf(blk, own, m.brk, hp, hp); }
  }

  lemma GrowTiles(blk: map<nat, nat>, own: Owner, brk: nat, hp: nat, nu: nat)
    requires Tiles(blk, own, brk) && hp >= brk > BASE && nu > 0 && hp !in blk
    ensures Tiles(blk[hp := nu], NewUnits(own, hp, nu), hp + nu)
    ensures forall u :: u in NewUnits(own, hp, nu) <==> u in own || hp <= u < hp + nu
  {
    GrowCovers(blk, own, brk, hp, nu);
    GrowBelong(blk, own, brk, hp, nu);
  }

  lemma NewUnitAt(own: Owner, hp: nat, nu: nat, u: nat)
    requires u < hp + nu && (u in own || hp <= u)
    ensures u in NewUnits(own, hp, nu) && NewUnits(own, hp, nu)[u] == if hp <= u then hp else own[u]
  {
  }

  lemma GrowCovers(blk: map<nat, nat>, own: Owner, brk: nat, hp: nat, nu: nat)
    requires Covers(blk, own) && Belong(blk, own, brk) && hp >= brk && hp !in blk
    ensures Covers(blk[hp := nu], NewUnits(own, hp, nu))
  {
    hide NewUnits, Covers, Belong;
    var blk', own' := blk[hp := nu], NewUnits(own, hp, nu);
    forall b: nat, u: nat | b in blk' && b <= u < b + blk'[b] ensures u in own' && own'[u] == b {
      if b != hp { UnitBelow(blk, own, brk, b, u); }
      NewUnitAt(own, hp, nu, u);
    }
    assert Covers(blk', own') by { CoversIntro(blk', own'); }
  }

  lemma CoversIntro(blk: map<nat, nat>, own: Owner)
    requires forall b: nat, u: nat :: b in blk && b <= u < b + blk[b] ==> u in own && own[u] == b
    ensures Covers(blk, own)
  {
  }

  lemma UnitBelow(blk: map<nat, nat>, own: Owner, brk: nat, b: nat, u: nat)
    requires Covers(blk, own) && Belong(blk, own, brk) && b in blk && b <= u < b + blk[b]
    ensures u in own && own[u] == b && u < brk
  {
  }

  lemma GrowBelong(blk: map<nat, nat>, own: Owner, brk: nat, hp: nat, nu: nat)
    requires Belong(blk, own, brk) && hp >= brk > BASE && nu > 0 && hp !in blk
    ensures Belong(blk[hp := nu], NewUnits(own, hp, nu), hp + nu)
  {
  }
}
