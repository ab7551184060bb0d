/** kernel/bio.c: the buffer table and its doubly linked list in order of last use. */
module BufferCache {
  import opened Base

  /** A buffer moved to the most recently used end of the list. */
  function MoveToFront(order: seq<nat>, i: nat): (r: seq<nat>)
  {
    [i] + Without(order, i)
  }

  function Without(order: seq<nat>, i: nat): (r: seq<nat>)
    ensures forall x :: x in r <==> x in order && x != i
    ensures |r| <= |order|
  {
    if order == [] then []
    else if order[0] == i then Without(order[1..], i)
    else [order[0]] + Without(order[1..], i)
  }

  lemma {:induction false} WithoutAbsent(order: seq<nat>, i: nat)
    requires i !in order
    ensures Without(order, i) == order
  {
    if order != [] { WithoutAbsent(order[1..], i); }
  }

  /** In a list without repetition, taking out the element at position `k` closes the gap. */
  lemma {:induction false} WithoutAt(order: seq<nat>, k: nat)
    requires Distinct(order) && k < |order|
    ensures Without(order, order[k]) == order[..k] + order[k + 1..]
  {
    if k == 0 {
      WithoutAbsent(order[1..], order[0]);
    } else {
      WithoutAt(order[1..], k - 1);
      assert order[1..][..k - 1] == order[1..k] && order[1..][k..] == order[k + 1..];
    }
  }

  lemma {:induction false} WithoutDistinct(order: seq<nat>, i: nat)
    requires Distinct(order)
    ensures Distinct(Without(order, i))
  {
    if order != [] {
      var rest := Without(order[1..], i);
      WithoutDistinct(order[1..], i);
      assert forall k :: 0 <= k < |rest| ==> rest[k] in rest;
      assert forall k :: 0 <= k < |order[1..]| ==> order[1..][k] == order[k + 1];
    }
  }

  // ------------------------------------------------ what the order of the list means

  /** `x` stands before `y`, that is, it is the more recently used of the two. */
  predicate Before(order: seq<nat>, x: nat, y: nat) {
    order != [] && ((order[0] == x && y in order[1..]) || Before(order[1..], x, y))
  }

  lemma {:induction false} BeforeAt(order: seq<nat>, a: nat, b: nat)
    requires a < b < |order|
    ensures Before(order, order[a], order[b])
  {
    if a == 0 {
      assert order[1..][b - 1] == order[b];
    } else {
      BeforeAt(order[1..], a - 1, b - 1);
    }
  }

  lemma {:induction false} BeforeMembers(order: seq<nat>, x: nat, y: nat)
    requires Before(order, x, y)
    ensures x in order && y in order
  {
    if !(order[0] == x && y in order[1..]) { BeforeMembers(order[1..], x, y); }
  }

  /** The list after the buffers `rs` were released for good, one after the other. */
  function AfterReleases(order: seq<nat>, rs: seq<nat>): seq<nat> {
    if rs == [] then order else MoveToFront(AfterReleases(order, rs[..|rs| - 1]), rs[|rs| - 1])
  }

  /** One more than the index of the last release of `x`, or 0 if it was never released. */
  function LastRelease(rs: seq<nat>, x: nat): nat {
    if rs == [] then 0 else if rs[|rs| - 1] == x then |rs| else LastRelease(rs[..|rs| - 1], x)
  }

  lemma LastReleaseBound(rs: seq<nat>, x: nat)
    ensures LastRelease(rs, x) <= |rs|
  {
  }

  lemma {:induction false} WithoutBefore(order: seq<nat>, i: nat, x: nat, y: nat)
    requires x != i && y != i
    ensures Before(Without(order, i), x, y) <==> Before(order, x, y)
  {
    if order != [] {
      var rest := Without(order[1..], i);
      WithoutBefore(order[1..], i, x, y);
      if order[0] != i {
        assert Without(order, i)[1..] == rest;
      }
    }
  }

  lemma MoveToFrontBefore(order: seq<nat>, i: nat, x: nat, y: nat)
    requires Distinct(order) && i in order && x in order && y in order && x != y
    ensures Before(MoveToFront(order, i), x, y) <==> x == i || (y != i && Before(order, x, y))
    ensures Distinct(MoveToFront(order, i)) && forall z :: z in MoveToFront(order, i) <==> z in order
  {
    var r := Without(order, i);
    WithoutDistinct(order, i);
    var m := [i] + r;
    assert m[0] == i && m[1..] == r;
    assert forall k :: 0 <= k < |r| ==> r[k] in r;
    if x != i {
      if y == i {
        if Before(r, x, y) { BeforeMembers(r, x, y); }
      } else {
        WithoutBefore(order, i, x, y);
      }
    }
  }

  /** The list is in order of last release: whatever the sequence of releases, a buffer stands
      before another exactly when it was released later, ties (neither ever released) being
      kept in their old order. */
  lemma {:induction false} ListIsByLastRelease(order: seq<nat>, rs: seq<nat>, x: nat, y: nat)
    requires Distinct(order) && x in order && y in order && x != y
    requires forall r :: r in rs ==> r in order
    ensures var o := AfterReleases(order, rs);
            && Distinct(o) && (forall z :: z in o <==> z in order)
            && (Before(o, x, y) <==>
                LastRelease(rs, x) > LastRelease(rs, y) ||
                (LastRelease(rs, x) == 0 == LastRelease(rs, y) && Before(order, x, y)))
  {
    if rs != [] {
      var n := |rs| - 1;
      var init, i := rs[..n], rs[n];
      assert forall r :: r in init ==> r in rs;
      ListIsByLastRelease(order, init, x, y);
      MoveToFrontBefore(AfterReleases(order, init), i, x, y);
      LastReleaseBound(init, x);
      LastReleaseBound(init, y);
    }
  }

  // ------------------------------------------------ the table and the linked list


  class Bcache {
    const head: nat := NBUF
    var prev: seq<nat>
    var next: seq<nat>
    var dev: seq<nat>
    var blockno: seq<nat>
    var refcnt: seq<nat>
    var valid: seq<bool>
    ghost var order: seq<nat>

    ghost predicate Shape()
      reads this
    {
      && |prev| == |next| == NBUF + 1
      && |dev| == |blockno| == |refcnt| == |valid| == NBUF
    }

    ghost predicate Ring(s: seq<nat>)
      reads this
      requires Shape()
    {
      IsRing(prev, next, s)
    }

    ghost predicate Linked()
      reads this
      requires Shape()
    {
      |order| == NBUF && Distinct(order) && Ring(order)
    }

    /** No two buffers that hold a block hold the same one. Device 0 marks a buffer that has
        never been used. */
    ghost predicate NoTwins()
      reads this
      requires Shape()
    {
      forall i, j :: 0 <= i < NBUF && 0 <= j < NBUF && i != j && dev[i] != 0 ==>
          dev[i] != dev[j] || blockno[i] != blockno[j]
    }

    ghost predicate Valid()
      reads this
    {
      Shape() && Linked() && NoTwins()
    }

    lemma EveryBuffer(i: nat)
      requires Valid() && i < NBUF
      ensures i in order
    {
      AllBelow(order, NBUF, i);
    }

    /** bget's first loop: the buffer that holds the block. */
    method FindCached(d: nat, b: nat) returns (r: Option<nat>)
      requires Valid() && d != 0
      ensures r.Some? ==> r.value < NBUF && dev[r.value] == d && blockno[r.value] == b
      ensures r.None? ==> forall i :: 0 <= i < NBUF ==> (dev[i] != d || blockno[i] != b)
    {
      var c := next[head];
      ghost var k := 0;
      while c != head
        invariant 0 <= k <= NBUF && c == if k < NBUF then order[k] else head
        invariant forall m :: 0 <= m < k ==> (dev[order[m]] != d || blockno[order[m]] != b)
        decreases NBUF - k
      {
        if dev[c] == d && blockno[c] == b {
          return Some(c);
        }
        c := next[c];
        k := k + 1;
      }
      forall i | 0 <= i < NBUF ensures (dev[i] != d || blockno[i] != b) {
        EveryBuffer(i);
      }
      return None;
    }

    /** bget's second loop: the least recently used buffer that nobody references. */
    method FindUnused() returns (r: Option<nat>)
      requires Valid()
      ensures r.Some? ==> r.value < NBUF && refcnt[r.value] == 0
      ensures r.Some? ==> forall i :: 0 <= i < NBUF && refcnt[i] == 0 && i != r.value ==> Before(order, i, r.value)
      ensures r.None? ==> forall i :: 0 <= i < NBUF ==> refcnt[i] > 0
    {
      var c := prev[head];
      ghost var k := NBUF;
      while c != head
        invariant 0 <= k <= NBUF && c == if k > 0 then order[k - 1] else head
        invariant forall m :: k <= m < NBUF ==> refcnt[order[m]] > 0
        decreases k
      {
        if refcnt[c] == 0 {
          forall i | 0 <= i < NBUF && refcnt[i] == 0 && i != c ensures Before(order, i, c) {
            EveryBuffer(i);
            var m :| 0 <= m < NBUF && order[m] == i;
            BeforeAt(order, m, k - 1);
          }
          return Some(c);
        }
        c := prev[c];
        k := k - 1;
      }
      forall i | 0 <= i < NBUF ensures refcnt[i] > 0 {
        EveryBuffer(i);
      }
      return None;
    }

    /** bget, without the locks: the buffer that holds the block, or else the least recently
        used buffer that nobody references, or else a panic. */
    method Bget(d: nat, b: nat) returns (r: Option<nat>)
      requires Valid() && d != 0
      modifies this`dev, this`blockno, this`refcnt, this`valid
      ensures Valid()
      ensures r.Some? ==>
                r.value < NBUF && dev[r.value] == d && blockno[r.value] == b &&
                refcnt[r.value] == old(refcnt[r.value]) + 1
      ensures r.Some? && old(dev[r.value]) == d && old(blockno[r.value]) == b ==> valid[r.value] == old(valid[r.value])
      ensures r.Some? && (old(dev[r.value]) != d || old(blockno[r.value]) != b) ==>
                && old(refcnt[r.value]) == 0 && !valid[r.value]
                && (forall i :: 0 <= i < NBUF ==> (old(dev[i]) != d || old(blockno[i]) != b))
                && (forall i :: 0 <= i < NBUF && old(refcnt[i]) == 0 && i != r.value ==> Before(order, i, r.value))
      ensures r.None? ==> forall i :: 0 <= i < NBUF ==> (dev[i] != d || blockno[i] != b) && refcnt[i] > 0
      ensures forall i :: 0 <= i < NBUF && r != Some(i) ==>
                dev[i] == old(dev[i]) && blockno[i] == old(blockno[i])
                && refcnt[i] == old(refcnt[i]) && valid[i] == old(valid[i])
    {
      r := FindCached(d, b);
      if r.Some? {
        refcnt := refcnt[r.value := refcnt[r.value] + 1];
        return;
      }
      assert forall i :: 0 <= i < NBUF ==> (old(dev[i]) != d || old(blockno[i]) != b);
      r := FindUnused();
      if r.Some? {
        var c := r.value;
        dev := dev[c := d];
        blockno := blockno[c := b];
        valid := valid[c := false];
        refcnt := refcnt[c := 1];
        assert forall i :: 0 <= i < NBUF && i != c ==> dev[i] == old(dev[i]) && blockno[i] == old(blockno[i]);
      }
    }

    /** binit: an empty table, its buffers linked one by one at the front. */
    constructor ()
      ensures Valid() && forall k :: 0 <= k < NBUF ==> order[k] == NBUF - 1 - k
      ensures forall i :: 0 <= i < NBUF ==> refcnt[i] == 0 && dev[i] == 0 && !valid[i]
    {
      prev, next := seq(NBUF + 1, _ => NBUF), seq(NBUF + 1, _ => NBUF);
      dev, blockno := seq(NBUF, _ => 0), seq(NBUF, _ => 0);
      refcnt, valid := seq(NBUF, _ => 0), seq(NBUF, _ => false);
      order := [];
      new;
      hide Distinct, Countdown, IsRing;
      LinkAll();
      order := Countdown(NBUF);
    }

    /** binit's loop. */
    method LinkAll()
      requires Shape() && (forall k :: 0 <= k <= NBUF ==> prev[k] == next[k] == NBUF)
      modifies this`prev, this`next
      ensures Shape() && Ring(Countdown(NBUF))
    {
      hide Countdown;
      assert Countdown(0) == [] by { CountdownZero(); }
      for b := 0 to NBUF
        invariant Shape() && Ring(Countdown(b))
      {
        CountdownStep(b);
        LinkFirst(b, Countdown(b));
      }
    }

    /** brelse, without the locks: the last reference moves the buffer to the front. */
    method Brelse(b: nat)
      requires Valid() && b < NBUF && refcnt[b] > 0
      modifies this`order, this`prev, this`next, this`refcnt
      ensures Valid()
      ensures refcnt[b] == old(refcnt[b]) - 1 && forall i :: 0 <= i < NBUF && i != b ==> refcnt[i] == old(refcnt[i])
      ensures order == if refcnt[b] == 0 then MoveToFront(old(order), b) else old(order)
    {
      hide Distinct, IsRing, Without;
      refcnt := refcnt[b := refcnt[b] - 1];
      if refcnt[b] == 0 {
        EveryBuffer(b);
        ghost var k :| 0 <= k < NBUF && order[k] == b;
        Unlink(b, k);
        WithoutAt(order, k);
        WithoutDistinct(order, b);
        LinkFirst(b, Without(order, b));
        MoveToFrontDistinct(order, b);
        order := MoveToFront(order, b);
      }
    }

    /** b->next->prev = b->prev; b->prev->next = b->next. */
    method Unlink(b: nat, ghost k: nat)
      requires Shape() && Linked() && k < NBUF && order[k] == b
      modifies this`prev, this`next
      ensures Shape() && Ring(order[..k] + order[k + 1..])
    {
      UnlinkRing(prev, next, order, k);
      prev := prev[next[b] := prev[b]];
      next := next[prev[b] := next[b]];
    }

    /** Insert `b` between the head and its first buffer. */
    method LinkFirst(b: nat, ghost rest: seq<nat>)
      requires Shape() && b < NBUF && b !in rest && Distinct(rest) && Ring(rest)
      modifies this`prev, this`next
      ensures Shape() && Ring([b] + rest)
    {
      LinkRing(prev, next, rest, b);
      next := next[b := next[head]];
      prev := prev[b := head];
      prev := prev[next[head] := b];
      next := next[head := b];
    }
  }

  /** `p` and `n` are one ring through the head (index NBUF) and the buffers of `s`, in that order. */
  ghost predicate IsRing(p: seq<nat>, n: seq<nat>, s: seq<nat>) {
    && |p| == |n| == NBUF + 1
    && (forall k :: 0 <= k < |s| ==> s[k] < NBUF)
    && (forall k :: 0 <= k < |s| - 1 ==> n[s[k]] == s[k + 1] && p[s[k + 1]] == s[k])
    && (if s == [] then n[NBUF] == NBUF == p[NBUF]
        else n[NBUF] == s[0] && p[s[0]] == NBUF && n[s[|s| - 1]] == NBUF && p[NBUF] == s[|s| - 1])
  }

  lemma UnlinkAt(p: seq<nat>, n: seq<nat>, s: seq<nat>, k: nat, m: nat)
    requires IsRing(p, n, s) && Distinct(s) && k < |s| && m + 2 < |s|
    ensures p[s[k]] <= NBUF && n[s[k]] <= NBUF
    ensures var rest := s[..k] + s[k + 1..];
            && n[p[s[k]] := n[s[k]]][rest[m]] == rest[m + 1]
            && p[n[s[k]] := p[s[k]]][rest[m + 1]] == rest[m]
  {
    var rest := s[..k] + s[k + 1..];
    assert p[s[k]] == if k == 0 then NBUF else s[k - 1];
    assert n[s[k]] == if k == |s| - 1 then NBUF else s[k + 1];
    if m + 1 < k {
      assert rest[m] == s[m] && rest[m + 1] == s[m + 1];
    } else if m + 1 == k {
      assert rest[m] == s[m] && rest[m + 1] == s[m + 2];
    } else {
      assert rest[m] == s[m + 1] && rest[m + 1] == s[m + 2];
    }
  }

  lemma UnlinkRing(p: seq<nat>, n: seq<nat>, s: seq<nat>, k: nat)
    requires IsRing(p, n, s) && Distinct(s) && k < |s|
    ensures p[s[k]] <= NBUF && n[s[k]] <= NBUF
    ensures IsRing(p[n[s[k]] := p[s[k]]], n[p[s[k]] := n[s[k]]], s[..k] + s[k + 1..])
  {
    hide Distinct;
    var rest := s[..k] + s[k + 1..];
    UnlinkEnds(p, n, s, k);
    var p', n' := p[n[s[k]] := p[s[k]]], n[p[s[k]] := n[s[k]]];
    forall m | 0 <= m < |rest| - 1 ensures n'[rest[m]] == rest[m + 1] && p'[rest[m + 1]] == rest[m] {
      UnlinkAt(p, n, s, k, m);
    }
  }

  /** The head still names the ends of the list. */
  lemma UnlinkEnds(p: seq<nat>, n: seq<nat>, s: seq<nat>, k: nat)
    requires IsRing(p, n, s) && Distinct(s) && k < |s|
    ensures p[s[k]] <= NBUF && n[s[k]] <= NBUF
    ensures var rest, p', n' := s[..k] + s[k + 1..], p[n[s[k]] := p[s[k]]], n[p[s[k]] := n[s[k]]];
            if rest == [] then n'[NBUF] == NBUF == p'[NBUF]
            else
              && rest[0] < NBUF && n'[NBUF] == rest[0] && p'[rest[0]] == NBUF
              && rest[|rest| - 1] < NBUF && n'[rest[|rest| - 1]] == NBUF && p'[NBUF] == rest[|rest| - 1]
  {
    assert p[s[k]] == if k == 0 then NBUF else s[k - 1];
    assert n[s[k]] == if k == |s| - 1 then NBUF else s[k + 1];
    var rest := s[..k] + s[k + 1..];
    if rest != [] {
      assert rest[0] == if k == 0 then s[1] else s[0];
      assert rest[|rest| - 1] == if k == |s| - 1 then s[k - 1] else s[|s| - 1];
    }
  }

  lemma LinkRing(p: seq<nat>, n: seq<nat>, rest: seq<nat>, b: nat)
    requires IsRing(p, n, rest) && Distinct(rest) && b < NBUF && b !in rest
    ensures IsRing(p[b := NBUF][n[NBUF] := b], n[b := n[NBUF]][NBUF := b], [b] + rest)
  {
    var s := [b] + rest;
    var p', n' := p[b := NBUF][n[NBUF] := b], n[b := n[NBUF]][NBUF := b];
    forall m | 0 <= m < |s| - 1 ensures n'[s[m]] == s[m + 1] && p'[s[m + 1]] == s[m] {
      if m > 0 { assert s[m] == rest[m - 1] && s[m + 1] == rest[m]; }
    }
  }

  lemma MoveToFrontDistinct(order: seq<nat>, b: nat)
    requires Distinct(order)
    ensures Distinct(MoveToFront(order, b))
  {
    WithoutDistinct(order, b);
    var r := Without(order, b);
    assert forall k :: 0 <= k < |r| ==> r[k] in r;
  }

  /** n - 1, n - 2, ..., 0. */
  function Countdown(n: nat): (s: seq<nat>)
    ensures |s| == n && Distinct(s) && forall k :: 0 <= k < n ==> s[k] == n - 1 - k
  {
    if n == 0 then [] else [n - 1] + Countdown(n - 1)
  }

  lemma CountdownZero()
    ensures Countdown(0) == []
  {
  }

  lemma CountdownStep(n: nat)
    ensures Countdown(n + 1) == [n] + Countdown(n)
  {
  }

  lemma AllBelow(s: seq<nat>, n: nat, i: nat)
    requires Distinct(s) && |s| == n && (forall k :: 0 <= k < n ==> s[k] < n) && i < n
    ensures i in s
  {
    if i !in s {
      SeqFits(s, Range(n) - {i});
    }
  }

  function Range(n: nat): (r: set<nat>)
    ensures |r| == n && forall x: nat :: x in r <==> x < n
  {
    if n == 0 then {} else Range(n - 1) + {n - 1}
  }

  lemma {:induction false} SeqFits(s: seq<nat>, t: set<nat>)
    requires Distinct(s) && forall x :: x in s ==> x in t
    ensures |s| <= |t|
  {
    if s != [] {
      var last := s[|s| - 1];
      assert last in t;
      SeqFits(s[..|s| - 1], t - {last});
    }
  }
}
