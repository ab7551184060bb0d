/** user/umalloc.c as code: malloc, free and morecore over one arena of headers. */
module MallocCode {
  import opened Base
  import opened Umalloc

  /** Units for a request: the bytes rounded up, and one for the header. */
  function Units(nbytes: nat): nat {
    (nbytes + 15) / 16 + 1
  }

  /** A number of bytes as the int that sbrk receives. */
  function AsInt(n: nat): int {
    var low := n % 0x1_0000_0000;
    if low < 0x8000_0000 then low else low - 0x1_0000_0000
  }

  /** What morecore asks for. */
  function CoreUnits(nu: nat): nat {
    if nu < 4096 then 4096 else nu
  }

  /** sbrk is asked for the bytes that morecore then uses exactly up to this request size. */
  lemma RequestFits(nbytes: nat)
    requires nbytes < 0x1_0000_0000
    ensures AsInt(CoreUnits(Units(nbytes)) * 16) == CoreUnits(Units(nbytes)) * 16 <==> nbytes <= 0x7FFF_FFE0
  {
  }

  /** The first request that goes wrong: sbrk is asked for a negative number of bytes. */
  lemma RequestWraps()
    ensures AsInt(CoreUnits(Units(0x7FFF_FFE1)) * 16) == -0x8000_0000
  {
  }

  /** Steps along the cycle from position `i` to position `f`. */
  function Distance(i: nat, f: nat, k: nat): nat
    requires i < k && f < k
  {
    if i <= f then f - i else f - i + k
  }

  function NextIndex(i: nat, k: nat): nat
    requires i < k
  {
    if i + 1 < k then i + 1 else 0
  }

  class Heap {
    var m: Arena
    ghost var list: seq<nat>
    ghost var alloc: map<nat, nat>
    ghost var own: Owner

    ghost predicate Ready()
      reads this
    {
      ArenaOk(m, list, alloc, own) && NoneAdjacent(m.size, list)
    }

    /** Before the first malloc there is no list. */
    ghost predicate Valid()
      reads this
    {
      if m.freep == 0 then alloc == map[] && own == map[] && BASE < m.brk else Ready()
    }

    /** The loop of free: the place of a block in the list. */
    method FindSpot(b: nat, ghost t: nat) returns (p: nat)
      requires Ready() && PlaceOf(list, b, t) && b > BASE
      ensures p == list[t]
    {
      hide Tiles;
      p := m.freep;
      ghost var i := IndexOf(list, p);
      while !(b > p && b < m.ptr[p])
        invariant 0 <= i < |list| && p == list[i] && p in m.ptr && m.ptr[p] == Next(list, i)
        decreases Distance(i, t, |list|)
      {
        if p >= m.ptr[p] && (b > p || b < m.ptr[p]) {
          AtEnd(list, b, t, i);
          return;
        }
        NotThere(list, b, t, i);
        p := m.ptr[p];
        i := NextIndex(i, |list|);
      }
      Between(list, b, t, i);
    }

    /** free of an allocated block. */
    method Free(b: nat)
      requires Ready() && b in alloc
      modifies this
      ensures Ready() && alloc == Without(old(alloc), b) && own.Keys == old(own.Keys) && m.brk == old(m.brk)
      ensures HasRoom(m, old(alloc)[b])
    {
      hide Tiles, Blocks, NoneAdjacent, Linked, HasRoom;
      AllocAbove(m, list, alloc, own, b);
      ghost var t := FindPlace(list, b);
      var p := FindSpot(b, t);
      ghost var list', own' := FreeAtOk(m, list, alloc, own, b, t);
      FreedBig(m, list, alloc, own, b, t, list', own');
      m := FreeAt(m, p, b);
      list, alloc, own := list', Without(alloc, b), own';
    }

    /** A process before its first malloc. */
    constructor (m: Arena)
      requires m.freep == 0 && BASE < m.brk
      ensures Valid() && this.m == m && alloc == map[]
    {
      this.m, list, alloc, own := m, [], map[], map[];
    }

    /** morecore, as long as the int passed to sbrk is the size it uses. `region` is what sbrk
        answers: nothing, or how far above the old break the region starts. */
    method Morecore(nu: nat, region: Option<nat>) returns (ok: bool)
      requires Ready() && nu > 0 && AsInt(CoreUnits(nu) * 16) == CoreUnits(nu) * 16
      modifies this
      ensures Ready() && alloc == old(alloc) && (ok <==> region.Some?)
      ensures !ok ==> m == old(m) && own == old(own)
      ensures ok ==> HasRoom(m, nu)
      ensures ok ==> forall u :: u in own <==>
                u in old(own) || old(m.brk) + region.value <= u < old(m.brk) + region.value + CoreUnits(nu)
    {
      hide Tiles, Blocks, NoneAdjacent, Linked, NewUnits, ListOk, AllocOk;
      if region.None? {
        return false;
      }
      var n := CoreUnits(nu);
      var hp := m.brk + region.value;
      GrowOk(m, list, alloc, own, hp, n);
      m := Grown(m, hp, n);
      own := NewUnits(own, hp, n);
      alloc := alloc[hp := n];
      Free(hp);
      assert alloc == old(alloc);
      ok := true;
    }

    /** The first malloc makes a list of `base` alone. */
    method Init()
      requires Valid() && m.freep == 0
      modifies this
      ensures Ready() && alloc == old(alloc) && own == old(own) && m.brk == old(m.brk)
      ensures list == [BASE] && BASE in m.size && m.size[BASE] == 0
    {
      m := m.(ptr := m.ptr[BASE := BASE], size := m.size[BASE := 0], freep := BASE);
      list := [BASE];
      assert Blocks(m, list, alloc) == map[];
    }

    /** malloc of any number of bytes: a block of exactly the units asked for, disjoint from every
        other allocated block; or none, and none only if sbrk refuses; or, when no free block will
        do and the request is beyond the limit of RequestFits, sbrk is asked for something else
        and nothing is promised from there on. */
    method Malloc(nbytes: nat, region: Option<nat>) returns (r: Option<nat>, misled: bool)
      requires Valid() && nbytes < 0x1_0000_0000
      modifies this
      ensures Ready()
      ensures misled ==> r.None?
      ensures misled <==> nbytes > 0x7FFF_FFE0 && (old(m.freep) == 0 || NoFit(old(m), old(list), Units(nbytes)))
      ensures r.None? ==> (region.None? || misled) && alloc == old(alloc) && own == old(own)
      ensures r.Some? ==> r.value !in old(alloc) && alloc == old(alloc)[r.value := Units(nbytes)]
      ensures r.None? || own.Keys != old(own.Keys) ==> old(m.freep) == 0 || NoFit(old(m), old(list), Units(nbytes))
      ensures nbytes > 0x7FFF_FFE0 ==> own.Keys == old(own.Keys)
      ensures own.Keys == old(own.Keys) || (region.Some? && forall u :: u in own <==>
                u in old(own) || old(m.brk) + region.value <= u < old(m.brk) + region.value + CoreUnits(Units(nbytes)))
    {
      hide Tiles, Blocks, NoneAdjacent, Linked, ListOk, AllocOk, Searching, HasRoom, Taken, Split, TooSmall, NoFit;
      var nunits := Units(nbytes);
      misled := false;
      if m.freep == 0 {
        Init();
        BaseTooSmall(m, list, nunits);
      }
      ghost var m0, list0 := m, list;
      ghost var f: nat := SearchStart(m, list, alloc, own, nunits, false);
      var prevp := m.freep;
      var p := m.ptr[prevp];
      ghost var j: nat, grown := f, false;
      SearchIndex(m, list, j, f, prevp, p, nunits, grown);
      NonePassed(m, list, f, nunits);
      while true
        invariant Ready() && alloc == old(alloc) && Searching(m, list, j, f, prevp, p, nunits, grown) && p in m.size &&
                  p in m.ptr
        invariant j < |list| && f < |list| && !misled && (grown ==> nbytes <= 0x7FFF_FFE0)
        invariant !grown ==> own == old(own) && m == m0 && list == list0 && TooSmall(m, list, j, f, nunits)
        invariant grown ==> NoFit(m0, list0, nunits)
        invariant grown ==> region.Some? && forall u :: u in own <==>
                    u in old(own) || old(m.brk) + region.value <= u < old(m.brk) + region.value + CoreUnits(nunits)
        decreases !grown, Distance(NextIndex(j, |list|), f, |list|)
      {
        if m.size[p] >= nunits {
          SearchFound(m, list, alloc, own, j, f, prevp, p, nunits, grown);
          Fits(m, list, j, f, prevp, p, nunits, grown);
          r := Take(prevp, p, nunits, j + 1);
          return;
        }
        if p == m.freep {
          OnlyOnce(m, list, j, f, prevp, p, nunits, grown);
          AllPassed(m, list, alloc, own, j, f, prevp, p, nunits, grown);
          RequestFits(nbytes);
          if AsInt(CoreUnits(nunits) * 16) != CoreUnits(nunits) * 16 {
            return None, true;
          }
          var ok := Morecore(nunits, region);
          if !ok {
            return None, false;
          }
          p := m.freep;
          grown := true;
          f := SearchStart(m, list, alloc, own, nunits, true);
          prevp, j := p, f;
          p := m.ptr[p];
          SearchIndex(m, list, j, f, prevp, p, nunits, grown);
        } else {
          SearchNext(m, list, alloc, own, j, f, prevp, p, nunits, grown);
          if !grown { OnePassed(m, list, j, f, prevp, p, nunits, grown); }
          prevp, j := p, NextIndex(j, |list|);
          p := m.ptr[p];
          SearchIndex(m, list, j, f, prevp, p, nunits, grown);
        }
      }
    }

    /** The part of malloc that hands out block p, or its tail. */
    method Take(prevp: nat, p: nat, nunits: nat, ghost i: nat) returns (r: Option<nat>)
      requires Ready() && 0 < i < |list| && list[i] == p && list[i - 1] == prevp && prevp in list
      requires p in m.size && p in m.ptr && m.size[p] >= nunits > 0
      modifies this
      ensures Ready() && r.Some? && r.value !in old(alloc) && alloc == old(alloc)[r.value := nunits] &&
              own.Keys == old(own.Keys)
    {
      hide Tiles, Blocks, NoneAdjacent, Linked, ListOk, AllocOk;
      if m.size[p] == nunits {
        TakeOk(m, list, alloc, own, i);
        m := m.(ptr := m.ptr[prevp := m.ptr[p]], freep := prevp);
        list, alloc := RemoveAt(list, i), alloc[p := nunits];
        return Some(p);
      }
      SplitOk(m, list, alloc, own, i, nunits, prevp);
      var rest := m.size[p] - nunits;
      var q := p + rest;
      m := m.(size := m.size[p := rest][q := nunits], freep := prevp);
      own, alloc := Tail(own, p, q), alloc[q := nunits];
      return Some(q);
    }
  }

  lemma SearchIndex(m: Arena, list: seq<nat>, j: nat, f: nat, prevp: nat, p: nat, n: nat, grown: bool)
    requires Searching(m, list, j, f, prevp, p, n, grown)
    ensures j < |list| && f < |list| && p in m.size && p in m.ptr
  {
  }

  /** One successful morecore is enough: malloc never comes round to freep again. */
  lemma OnlyOnce(m: Arena, list: seq<nat>, j: nat, f: nat, prevp: nat, p: nat, n: nat, grown: bool)
    requires Searching(m, list, j, f, prevp, p, n, grown) && p == m.freep && p in m.size && m.size[p] < n
    ensures !grown
  {
  }

  // ------------------------------------------------------------ malloc's search

  /** Where the search stands: `prevp` at position j, `p` right after it. Once morecore has
      succeeded, a block that is large enough lies ahead, at freep at the latest. */
  ghost predicate Searching(m: Arena, list: seq<nat>, j: nat, f: nat, prevp: nat, p: nat, n: nat, grown: bool) {
    && j < |list| && f < |list| && list[j] == prevp && list[f] == m.freep && p == Next(list, j)
    && p in m.size && p in m.ptr && m.freep in m.size && Next(list, f) in m.size
    && (grown ==> m.size[m.freep] >= n || (j == f && m.size[Next(list, f)] >= n))
  }

  /** No free block has room for n units. */
  ghost predicate NoFit(m: Arena, list: seq<nat>, n: nat) {
    forall i :: 0 <= i < |list| ==> list[i] in m.size && m.size[list[i]] < n
  }

  /** The blocks the search has passed, those between freep and position j, are too small. */
  ghost predicate TooSmall(m: Arena, list: seq<nat>, j: nat, f: nat, n: nat) {
    && j < |list| && f < |list|
    && forall i: nat :: i < |list| && Distance(i, f, |list|) > Distance(NextIndex(j, |list|), f, |list|) ==>
         list[i] in m.size && m.size[list[i]] < n
  }

  lemma BaseTooSmall(m: Arena, list: seq<nat>, n: nat)
    requires list == [BASE] && BASE in m.size && m.size[BASE] == 0 && n > 0
    ensures NoFit(m, list, n)
  {
  }

  lemma Fits(m: Arena, list: seq<nat>, j: nat, f: nat, prevp: nat, p: nat, n: nat, grown: bool)
    requires Searching(m, list, j, f, prevp, p, n, grown) && m.size[p] >= n
    ensures !NoFit(m, list, n)
  {
    assert p == list[NextIndex(j, |list|)];
  }

  lemma NonePassed(m: Arena, list: seq<nat>, f: nat, n: nat)
    requires f < |list|
    ensures TooSmall(m, list, f, f, n)
  {
  }

  lemma OnePassed(m: Arena, list: seq<nat>, j: nat, f: nat, prevp: nat, p: nat, n: nat, grown: bool)
    requires Searching(m, list, j, f, prevp, p, n, grown) && TooSmall(m, list, j, f, n) && m.size[p] < n && p != m.freep
    ensures TooSmall(m, list, NextIndex(j, |list|), f, n)
  {
  }

  /** Back at freep, the search has seen every block. */
  lemma AllPassed(m: Arena, list: seq<nat>, alloc: map<nat, nat>, own: Owner, j: nat, f: nat, prevp: nat, p: nat,
                  n: nat, grown: bool)
    requires ArenaOk(m, list, alloc, own) && Searching(m, list, j, f, prevp, p, n, grown) && TooSmall(m, list, j, f, n)
    requires p == m.freep && m.size[p] < n
    ensures NoFit(m, list, n)
  {
    hide Tiles, Linked;
    assert NextIndex(j, |list|) == f;
  }

  lemma SearchStart(m: Arena, list: seq<nat>, alloc: map<nat, nat>, own: Owner, n: nat, grown: bool) returns (f: nat)
    requires ArenaOk(m, list, alloc, own) && (grown ==> HasRoom(m, n))
    ensures m.freep in m.ptr && Searching(m, list, f, f, m.freep, m.ptr[m.freep], n, grown)
  {
    hide Tiles;
    f := IndexOf(list, m.freep);
    NextKnown(m, list, alloc, own, f);
  }

  lemma SearchNext(m: Arena, list: seq<nat>, alloc: map<nat, nat>, own: Owner, j: nat, f: nat, prevp: nat, p: nat,
                   n: nat, grown: bool)
    requires ArenaOk(m, list, alloc, own) && Searching(m, list, j, f, prevp, p, n, grown) && m.size[p] < n &&
             p != m.freep
    ensures var j' := NextIndex(j, |list|);
            && Searching(m, list, j', f, p, m.ptr[p], n, grown)
            && Distance(NextIndex(j', |list|), f, |list|) < Distance(j', f, |list|)
  {
    hide Tiles, Sized, ListOk, AllocOk, Distance;
    var j' := NextIndex(j, |list|);
    NextAt(m, list, j);
    NextKnown(m, list, alloc, own, j');
    Closer(j', f, |list|);
  }

  lemma NextAt(m: Arena, list: seq<nat>, j: nat)
    requires ListOk(m, list) && j < |list|
    ensures var j' := NextIndex(j, |list|);
            list[j'] == Next(list, j) && list[j'] in m.ptr && m.ptr[list[j']] == Next(list, j')
  {
  }

  lemma Closer(i: nat, f: nat, k: nat)
    requires i < k && f < k && i != f
    ensures Distance(NextIndex(i, k), f, k) < Distance(i, f, k)
  {
  }

  /** The block found is not `base`, so it does not follow a wrap. */
  lemma SearchFound(m: Arena, list: seq<nat>, alloc: map<nat, nat>, own: Owner, j: nat, f: nat, prevp: nat, p: nat,
                    n: nat, grown: bool)
    requires ArenaOk(m, list, alloc, own) && Searching(m, list, j, f, prevp, p, n, grown) && m.size[p] >= n > 0
    ensures j + 1 < |list| && p == list[j + 1] && prevp == list[j] && prevp in list
  {
    hide Tiles, Linked, Sorted;
    assert list[0] in list;
  }

  ghost function IndexOf(list: seq<nat>, p: nat): (i: nat)
    requires p in list
    ensures i < |list| && list[i] == p
  {
    var i: nat :| i < |list| && list[i] == p;
    i
  }

  lemma AllocAbove(m: Arena, list: seq<nat>, alloc: map<nat, nat>, own: Owner, b: nat)
    requires ArenaOk(m, list, alloc, own) && b in alloc
    ensures b > BASE && b !in list && Sorted(list) && list != [] && list[0] == BASE
  {
    hide Tiles;
    var blk := Blocks(m, list, alloc);
    assert b in blk && b <= b < b + blk[b];
    OwnAbove(blk, own, m.brk, b);
  }

  lemma OwnAbove(blk: map<nat, nat>, own: Owner, brk: nat, b: nat)
    requires Tiles(blk, own, brk) && b in blk && blk[b] > 0
    ensures BASE < b
  {
    assert own[b] == b;
  }

  lemma AtEnd(list: seq<nat>, b: nat, t: nat, i: nat)
    requires Sorted(list) && list != [] && list[0] < b && PlaceOf(list, b, t) && i < |list|
    requires list[i] >= Next(list, i) && (b > list[i] || b < Next(list, i))
    ensures i == t
  {
    assert i + 1 >= |list|;
    assert PlaceOf(list, b, i);
    OnePlace(list, b, t, i);
  }

  lemma Between(list: seq<nat>, b: nat, t: nat, i: nat)
    requires Sorted(list) && list != [] && list[0] < b && PlaceOf(list, b, t) && i < |list| &&
             list[i] < b < Next(list, i)
    ensures i == t
  {
    assert PlaceOf(list, b, i);
    OnePlace(list, b, t, i);
  }

  lemma OnePlace(list: seq<nat>, b: nat, t: nat, i: nat)
    requires Sorted(list) && PlaceOf(list, b, t) && PlaceOf(list, b, i)
    ensures i == t
  {
  }

  lemma NotThere(list: seq<nat>, b: nat, t: nat, i: nat)
    requires Sorted(list) && list != [] && list[0] < b && PlaceOf(list, b, t) && i < |list|
    requires !(list[i] < b < Next(list, i)) && !(list[i] >= Next(list, i) && (b > list[i] || b < Next(list, i)))
    ensures i != t && Distance(NextIndex(i, |list|), t, |list|) < Distance(i, t, |list|)
  {
    if i + 1 == |list| { assert i > 0 ==> list[0] < list[i]; }
  }
}
