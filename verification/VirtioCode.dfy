/** kernel/virtio_disk.c as code: the driver's routines, each run under vdisk_lock, and the two
    moves of the device. Every one of them keeps the same invariant, so any interleaving does. */
module VirtioCode {
  import opened Base
  import opened Virtio

  /** Fewer than three descriptors are free. */
  predicate FewFree(d: Drv) {
    |d.free| == 8 && forall i, j, k :: 0 <= i < j < k < 8 ==> !(d.free[i] && d.free[j] && d.free[k])
  }

  /** What the device may do: take the next posted chain, or complete one that it has taken. */
  datatype Move = TakeNext | Complete(h: nat)

  function Rank(x: Stage): nat {
    match x
    case Posted => 0
    case Taken => 1
    case Finished => 2
    case Seen => 3
  }

  /** A stage that comes after another one. */
  predicate Later(x: Stage, y: Stage) {
    Rank(x) >= Rank(y)
  }

  /** Chains that the device may have taken or finished, and the driver seen, in the meantime. */
  ghost predicate Moved(before: map<nat, Chain>, after: map<nat, Chain>) {
    && after.Keys == before.Keys
    && forall h :: h in before ==>
         Later(after[h].stage, before[h].stage) && after[h] == before[h].(stage := after[h].stage)
  }

  /** The buffers of the chains that have been seen since. */
  ghost function SeenBufs(before: map<nat, Chain>, after: map<nat, Chain>): set<nat> {
    set h | h in before && before[h].stage != Seen && h in after && after[h].stage == Seen :: before[h].buf
  }

  class Driver {
    var d: Drv
    var deviceIdx: nat  // how far the device has read in the avail ring
    var g: History  // what the device knows: the chains and what has gone through the rings
    var arrivals: seq<seq<Move>>  // the moves of the device, from one test of its index to the next

    ghost predicate Valid()
      reads this
    {
      Inv(d, g) && deviceIdx == g.taken % 65536
    }

    /** virtio_disk_init: all descriptors free, all indices zero. */
    constructor (arrivals: seq<seq<Move>>)
      ensures Valid() && g.chains == map[] && d.busy == {}
    {
      d := Drv(seq(8, _ => true), seq(8, _ => Desc(false, 0)), seq(8, _ => None), {}, seq(8, _ => 0), 0, seq(8, _ => 0),
        0, 0);
      deviceIdx, g := 0, History(seq(8, _ => None), map[], [], 0, [], 0);
      this.arrivals := arrivals;
    }

    /** alloc_desc: the first free descriptor. */
    method AllocDesc() returns (r: int)
      requires |d.free| == 8
      modifies this`d
      ensures -1 <= r < 8
      ensures r == -1 ==> d == old(d) && forall i :: 0 <= i < 8 ==> !d.free[i]
      ensures r >= 0 ==>
                old(d).free[r] && (forall i :: 0 <= i < r ==> !old(d).free[i]) &&
                d == old(d).(free := old(d).free[r := false])
    {
      var i := 0;
      while i < 8
        invariant i <= 8 && d == old(d) && forall j :: 0 <= j < i ==> !d.free[j]
      {
        if d.free[i] {
          d := d.(free := d.free[i := false]);
          return i;
        }
        i := i + 1;
      }
      r := -1;
    }

    /** free_desc of a descriptor in use. */
    method Release(i: nat)
      requires |d.free| == 8 && |d.desc| == 8 && i < 8 && !d.free[i]
      modifies this`d
      ensures d == FreeDesc(old(d), i)
    {
      d := d.(desc := d.desc[i := Desc(false, 0)]);
      d := d.(free := d.free[i := true]);
    }

    /** alloc3_desc: three descriptors or none. A failed attempt clears the descriptors it gives
        back, which are free and so in no chain. */
    method Alloc3Desc() returns (ok: bool, h: nat, mid: nat, last: nat)
      requires |d.free| == 8 && |d.desc| == 8
      modifies this`d
      ensures ok ==> h < 8 && mid < 8 && last < 8 && h != mid && mid != last && h != last
                     && old(d).free[h] && old(d).free[mid] && old(d).free[last]
                     && d == old(d).(free := old(d).free[h := false][mid := false][last := false])
      ensures !ok ==> d.free == old(d).free && |d.desc| == 8 && d == old(d).(desc := d.desc)
      ensures !ok ==> forall i :: 0 <= i < 8 && !d.free[i] ==> d.desc[i] == old(d).desc[i]
      ensures !ok ==> FewFree(old(d))
    {
      h, mid, last := 0, 0, 0;
      var a := AllocDesc();
      if a < 0 {
        return false, h, mid, last;
      }
      ghost var d1 := d;
      var b := AllocDesc();
      if b < 0 {
        Release(a);
        assert d.free == old(d).free;
        return false, h, mid, last;
      }
      ghost var d2 := d;
      var c := AllocDesc();
      if c < 0 {
        Release(a);
        Release(b);
        assert d.free == old(d).free;
        return false, h, mid, last;
      }
      return true, a, b, c;
    }

    /** virtio_disk_rw up to the wait: the request of buffer b is posted, or the caller must
        sleep because fewer than three descriptors are free. */
    method Submit(b: nat) returns (ok: bool, h: nat)
      requires Valid() && forall x :: x in g.chains ==> g.chains[x].buf != b
      modifies this
      ensures Valid() && deviceIdx == old(deviceIdx)
      ensures ok ==>
                h !in old(g.chains) &&
                exists mid, last ::
                  CanPost(old(d), old(g), h, mid, last, b) && g == PostHistory(old(g), h, mid, last, b)
      ensures !ok ==> g == old(g) && d.free == old(d.free) && d.busy == old(d.busy) && FewFree(d)
    {
      hide ChainsOk, AllAccounted, RingOk, BufsDiffer;
      Sizes(d, g);
      ghost var d0 := d;
      var mid, last;
      ok, h, mid, last := Alloc3Desc();
      if !ok {
        UnusedDesc(d0, g, d);
        return;
      }
      ghost var g0 := g;
      HeadFree(d0, g, h);
      PostOk(d0, g, h, mid, last, b);
      d := d.(desc := d.desc[h := Desc(true, mid)]);
      d := d.(desc := d.desc[mid := Desc(true, last)]);
      d := d.(desc := d.desc[last := Desc(false, 0)]);
      d := d.(busy := d.busy + {b}, info := d.info[h := Some(b)]);
      d := d.(availRing := d.availRing[d.availIdx % 8 := h]);
      d := d.(availIdx := (d.availIdx + 1) % 65536);
      g := PostHistory(g, h, mid, last, b);
      assert CanPost(d0, g0, h, mid, last, b);
    }

    /** The device takes posted chains and completes chains of its choice among those it has taken. */
    method DeviceRuns()
      requires Valid()
      modifies this
      ensures Valid() && Moved(old(g.chains), g.chains) && SeenBufs(old(g.chains), g.chains) == {}
      ensures g.seen == old(g.seen) && g.posted == old(g.posted) && old(g.finished) <= g.finished
      ensures d == old(d).(usedRing := d.usedRing, usedRingIdx := d.usedRingIdx)
      ensures |arrivals| == if |old(arrivals)| == 0 then 0 else |old(arrivals)| - 1
      ensures old(arrivals) == [] ==> g == old(g) && d == old(d)
    {
      hide ChainsOk, AllAccounted, RingOk, BufsDiffer, Moved, SeenBufs;
      MovedNone(g.chains);
      if arrivals == [] {
        return;
      }
      var moves := arrivals[0];
      arrivals := arrivals[1..];
      for i := 0 to |moves|
        invariant Valid() && Moved(old(g.chains), g.chains) && SeenBufs(old(g.chains), g.chains) == {}
        invariant g.seen == old(g.seen) && g.posted == old(g.posted) && old(g.finished) <= g.finished
        invariant d == old(d).(usedRing := d.usedRing, usedRingIdx := d.usedRingIdx)
        invariant |arrivals| == |old(arrivals)| - 1
      {
        ghost var chains := g.chains;
        if moves[i].TakeNext? {
          if deviceIdx != d.availIdx {
            var h := DeviceTake();
            MovedOne(old(g.chains), chains, h, Taken);
          }
        } else if moves[i].h in g.chains && g.chains[moves[i].h].stage == Taken {
          DeviceComplete(moves[i].h);
          MovedOne(old(g.chains), chains, moves[i].h, Finished);
        }
      }
    }

    /** virtio_disk_intr: every entry of the used ring names a chain whose buffer waits. The device
        may take and complete more chains before each test of its index; at the last test every chain that
        is complete has been seen, and exactly the buffers of the chains seen are released. */
    method Intr()
      requires Valid()
      modifies this
      ensures Valid() && g.seen == |g.finished| && old(g.finished) <= g.finished && g.posted == old(g.posted)
      ensures Moved(old(g.chains), g.chains) && forall h :: h in g.chains ==> g.chains[h].stage != Finished
      ensures d.busy == old(d.busy) - SeenBufs(old(g.chains), g.chains)
      ensures d.free == old(d).free && d.desc == old(d).desc && d.info == old(d).info
      ensures d.availRing == old(d).availRing && d.availIdx == old(d).availIdx
    {
      hide ChainsOk, AllAccounted, RingOk, BufsDiffer, Moved, SeenBufs;
      DeviceRuns();
      SeenBound(d, g);
      UsedWaiting(d, g);
      while d.usedIdx != d.usedRingIdx
        invariant Valid() && g.seen <= |g.finished| && old(g.finished) <= g.finished && g.posted == old(g.posted)
        invariant d == old(d).(busy := d.busy, usedIdx := d.usedIdx, usedRing := d.usedRing,
                  usedRingIdx := d.usedRingIdx)
        invariant Moved(old(g.chains), g.chains)
        invariant d.busy == old(d.busy) - SeenBufs(old(g.chains), g.chains)
        invariant d.usedIdx != d.usedRingIdx <==> g.seen < |g.finished|
        decreases |arrivals|, |g.finished| - g.seen
      {
        NextUsed(d, g);
        SeeOk(d, g);
        var id := d.usedRing[d.usedIdx % 8];
        d := d.(busy := d.busy - {d.info[id].value}, usedIdx := (d.usedIdx + 1) % 65536);
        MovedOne(old(g.chains), g.chains, id, Seen);
        g := SeeHistory(g);
        ghost var chains1 := g.chains;
        DeviceRuns();
        MovedTwice(old(g.chains), chains1, g.chains);
        SeenBound(d, g);
        UsedWaiting(d, g);
      }
      NoneLeft(d, g);
    }

    /** free_chain. */
    method FreeChain(i: nat, ghost mid: nat, ghost last: nat)
      requires |d.free| == 8 && |d.desc| == 8 && |d.info| == 8 && i < 8 && mid < 8 && last < 8 && i != mid &&
               mid != last && i != last
      requires !d.free[i] && !d.free[mid] && !d.free[last]
      requires d.desc[i] == Desc(true, mid) && d.desc[mid] == Desc(true, last) && !d.desc[last].more
      modifies this`d
      ensures d == FreeDesc(FreeDesc(FreeDesc(old(d), i), mid), last)
    {
      var j := i;
      ghost var step := 0;
      ghost var d0 := d;
      while true
        invariant step <= 2 && |d.free| == 8 && |d.desc| == 8 && j < 8
        invariant step == 0 ==> j == i && d == d0
        invariant step == 1 ==> j == mid && d == FreeDesc(d0, i)
        invariant step == 2 ==> j == last && d == FreeDesc(FreeDesc(d0, i), mid)
        decreases 3 - step
      {
        var more, next := d.desc[j].more, d.desc[j].next;
        Release(j);
        if !more {
          break;
        }
        j := next;
        step := step + 1;
      }
    }

    /** virtio_disk_rw after the wait: the buffer is done, and its chain is freed. */
    method Finish(h: nat)
      requires Valid() && h in g.chains && g.chains[h].buf !in d.busy
      modifies this
      ensures Valid() && g.chains == old(g.chains) - {h} && g.posted == old(g.posted) && g.finished == old(g.finished)
      ensures d.busy == old(d.busy) && deviceIdx == old(deviceIdx)
    {
      hide ChainsOk, AllAccounted, RingOk, BufsDiffer;
      ChainHead(d, g, h);
      DropOk(d, g, h);
      InUse(d, g, h);
      ghost var c := g.chains[h];
      var g' := DropHistory(g, h);
      d := d.(info := d.info[h := None]);
      FreeChain(h, c.mid, c.last);
      g := g';
    }

    /** The device takes the next entry of the avail ring: the heads come out in the order in
        which they were posted. */
    method DeviceTake() returns (h: nat)
      requires Valid() && deviceIdx != d.availIdx
      modifies this
      ensures Valid() && d == old(d) && arrivals == old(arrivals)
      ensures old(g.taken) < |old(g.posted)| && h == old(g.posted)[old(g.taken)] && h in old(g.chains)
      ensures old(g.chains)[h].stage == Posted && g == TakeHistory(old(g))
    {
      hide ChainsOk, AllAccounted, RingOk, BufsDiffer;
      PostedWaiting(d, g);
      NextPosted(d, g);
      TakeOk(d, g);
      IndexWraps(g.taken);
      h := d.availRing[deviceIdx % 8];
      deviceIdx := (deviceIdx + 1) % 65536;
      g := TakeHistory(g);
    }

    /** The device reports a chain it has taken, in any order. */
    method DeviceComplete(h: nat)
      requires Valid() && h in g.chains && g.chains[h].stage == Taken
      modifies this
      ensures Valid() && g == CompleteHistory(old(g), h) && deviceIdx == old(deviceIdx) && arrivals == old(arrivals)
      ensures d == old(d).(usedRing := d.usedRing, usedRingIdx := d.usedRingIdx)
    {
      hide ChainsOk, AllAccounted, RingOk, BufsDiffer;
      CompleteOk(d, g, h);
      d := d.(usedRing := d.usedRing[d.usedRingIdx % 8 := h], usedRingIdx := (d.usedRingIdx + 1) % 65536);
      g := CompleteHistory(g, h);
    }
  }

  lemma MovedOne(before: map<nat, Chain>, chains: map<nat, Chain>, h: nat, x: Stage)
    requires Moved(before, chains) && h in chains
    requires Rank(x) == Rank(chains[h].stage) + 1
    ensures var chains' := SetStage(chains, h, x);
            && Moved(before, chains')
            && SeenBufs(before, chains') == SeenBufs(before, chains) + if x == Seen then {chains[h].buf} else {}
  {
    var chains' := SetStage(chains, h, x);
    if x == Seen {
      assert chains'[h].stage == Seen && before[h].stage != Seen;
      assert before[h].buf in SeenBufs(before, chains');
    }
  }

  lemma MovedNone(chains: map<nat, Chain>)
    ensures Moved(chains, chains) && SeenBufs(chains, chains) == {}
  {
  }

  lemma MovedTwice(a: map<nat, Chain>, b: map<nat, Chain>, c: map<nat, Chain>)
    requires Moved(a, b) && Moved(b, c) && SeenBufs(b, c) == {}
    ensures Moved(a, c) && SeenBufs(a, c) == SeenBufs(a, b)
  {
    assert forall h :: h in b && h in c && b[h].stage != Seen && c[h].stage == Seen ==> b[h].buf in SeenBufs(b, c);
  }

  /** With the used ring read to its end, no finished chain is left. */
  lemma NoneLeft(d: Drv, g: History)
    requires Inv(d, g) && g.seen == |g.finished|
    ensures forall h :: h in g.chains ==> g.chains[h].stage != Finished
  {
    hide ChainsOk, AllAccounted, BufsDiffer;
    assert g.finished[g.seen..] == [];
  }

  lemma PostedWaiting(d: Drv, g: History)
    requires Inv(d, g)
    ensures g.taken % 65536 != d.availIdx <==> g.taken < |g.posted|
  {
    hide ChainsOk, AllAccounted, BufsDiffer;
  }

  lemma SeenBound(d: Drv, g: History)
    requires Inv(d, g)
    ensures g.seen <= |g.finished|
  {
    hide ChainsOk, AllAccounted, BufsDiffer;
  }

  /** Descriptors in no chain may hold anything. */
  lemma UnusedDesc(d: Drv, g: History, d': Drv)
    requires Inv(d, g) && |d.free| == 8 && |d.desc| == 8 && |d'.desc| == 8 && d' == d.(desc := d'.desc)
    requires forall i :: 0 <= i < 8 && !d.free[i] ==> d'.desc[i] == d.desc[i]
    ensures Inv(d', g)
  {
    hide RingOk, BufsDiffer;
    forall h | h in g.chains ensures ChainOk(d', g.of, h, g.chains[h]) {
      InUse(d, g, h);
      assert ChainOk(d, g.of, h, g.chains[h]);
    }
  }

  /** The three descriptors of a chain are in use. */
  lemma InUse(d: Drv, g: History, h: nat)
    requires Inv(d, g) && h in g.chains
    ensures var c := g.chains[h];
            h < 8 && c.mid < 8 && c.last < 8 && |d.free| == 8 && !d.free[h] && !d.free[c.mid] && !d.free[c.last]
  {
    hide RingOk, BufsDiffer;
    assert ChainOk(d, g.of, h, g.chains[h]);
    Facts(d, g, h);
    Facts(d, g, g.chains[h].mid);
    Facts(d, g, g.chains[h].last);
  }

  lemma HeadFree(d: Drv, g: History, h: nat)
    requires Inv(d, g) && h < 8 && |d.free| == 8 && d.free[h]
    ensures h !in g.chains
  {
    hide ChainsOk, AllAccounted, RingOk, BufsDiffer;
    if h in g.chains { ChainHead(d, g, h); }
  }
}
