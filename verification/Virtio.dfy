/** kernel/virtio_disk.c: descriptors, chains and the two rings shared with the device (sections
    2.6 and 5.2 of VIRTIO 1.1). */
module Virtio {
  import opened Base

  /** A descriptor's VRING_DESC_F_NEXT flag and its next field. */
  datatype Desc = Desc(more: bool, next: nat)

  /** `busy` holds the buffers whose disk field is 1. Ring indices are 16-bit counters. */
  datatype Drv = Drv(free: seq<bool>, desc: seq<Desc>, info: seq<Option<nat>>, busy: set<nat>,
                     availRing: seq<nat>, availIdx: nat, usedRing: seq<nat>, usedRingIdx: nat, usedIdx: nat)

  /** Posted: in the avail ring; Taken: the device works on it; Finished: in the used ring; Seen: the
      interrupt handler has released the buffer. */
  datatype Stage = Posted | Taken | Finished | Seen

  /** A chain of three descriptors, named by its head. */
  datatype Chain = Chain(mid: nat, last: nat, buf: nat, stage: Stage)

  /** Which chain each descriptor belongs to, the chains, and what has gone through the rings:
      all heads posted, how many the device has taken, all heads completed, and how many of those
      the driver has seen. */
  datatype History = History(of: seq<Option<nat>>, chains: map<nat, Chain>, posted: seq<nat>, taken: nat,
    finished: seq<nat>, seen: nat)

  // ------------------------------------------------------------ the invariant

  /** One chain: three different descriptors of its own, linked in order, with its buffer. */
  ghost predicate ChainOk(d: Drv, of: seq<Option<nat>>, h: nat, c: Chain) {
    && h < 8 && c.mid < 8 && c.last < 8 && h != c.mid && c.mid != c.last && h != c.last
    && |of| == 8 && |d.desc| == 8 && |d.info| == 8
    && of[h] == Some(h) && of[c.mid] == Some(h) && of[c.last] == Some(h)
    && d.desc[h] == Desc(true, c.mid) && d.desc[c.mid] == Desc(true, c.last) && !d.desc[c.last].more
    && d.info[h] == Some(c.buf)
    && (c.buf in d.busy <==> c.stage != Seen)
  }

  ghost predicate ChainsOk(d: Drv, of: seq<Option<nat>>, chains: map<nat, Chain>) {
    forall h :: h in chains ==> ChainOk(d, of, h, chains[h])
  }

  ghost predicate BufsDiffer(chains: map<nat, Chain>) {
    forall g, h :: g in chains && h in chains && chains[g].buf == chains[h].buf ==> g == h
  }

  /** A descriptor is free, or one of the three of one chain. */
  ghost predicate OwnOk(free: seq<bool>, of: seq<Option<nat>>, chains: map<nat, Chain>, i: nat)
    requires |free| == 8 && |of| == 8 && i < 8
  {
    && (free[i] <==> of[i].None?)
    && (of[i].Some? ==> var h := of[i].value; h in chains && (i == h || i == chains[h].mid || i == chains[h].last))
  }

  ghost predicate AllAccounted(free: seq<bool>, of: seq<Option<nat>>, chains: map<nat, Chain>) {
    |free| == 8 && |of| == 8 && forall i: nat :: i < 8 ==> OwnOk(free, of, chains, i)
  }

  /** A ring whose entries from `from` on are the heads `log[from..]`: exactly the chains in the
      given stage, each of them once. */
  ghost predicate RingOk(ring: seq<nat>, idx: nat, log: seq<nat>, from: nat, chains: map<nat, Chain>, stage: Stage) {
    && |ring| == 8 && idx == |log| % 65536 && from <= |log| <= from + 8
    && (forall k: nat :: from <= k < |log| ==>
         ring[k % 8] == log[k] && log[k] in chains && chains[log[k]].stage == stage)
    && (forall j: nat, k: nat :: from <= j < k < |log| ==> log[j] != log[k])
    && (forall h :: h in chains && chains[h].stage == stage ==> h in log[from..])
  }

  ghost predicate Inv(d: Drv, g: History) {
    && |d.desc| == 8 && |d.info| == 8 && ChainsOk(d, g.of, g.chains) && BufsDiffer(g.chains) &&
       AllAccounted(d.free, g.of, g.chains)
    && RingOk(d.availRing, d.availIdx, g.posted, g.taken, g.chains, Posted)
    && RingOk(d.usedRing, d.usedRingIdx, g.finished, g.seen, g.chains, Finished)
    && d.usedIdx == g.seen % 65536
  }

  // ------------------------------------------------------------ rings

  lemma {:induction false} Pigeons(s: seq<nat>, n: nat)
    requires (forall i :: 0 <= i < |s| ==> s[i] < n) && (forall i, j :: 0 <= i < j < |s| ==> s[i] != s[j])
    ensures |s| <= n
    decreases n
  {
    if |s| > 0 {
      assert s[0] < n;
      if i :| 0 <= i < |s| && s[i] == n - 1 {
        Pigeons(s[..i] + s[i + 1..], n - 1);
      } else {
        Pigeons(s, n - 1);
      }
    }
  }

  lemma SlotsDiffer(j: nat, k: nat)
    requires j < k < j + 8
    ensures j % 8 != k % 8
  {
  }

  lemma IndexWraps(n: nat)
    ensures (n % 65536) % 8 == n % 8 && (n % 65536 + 1) % 65536 == (n + 1) % 65536
  {
    IndexSlot(n);
  }

  lemma IndexSlot(n: nat)
    ensures (n % 65536) % 8 == n % 8
  {
    var q, r := n / 65536, n % 65536;
    assert n == (q * 8192) * 8 + r;
  }

  /** A new entry for a head that is not yet waiting in the ring. */
  lemma RingPush(ring: seq<nat>, idx: nat, log: seq<nat>, from: nat, chains: map<nat, Chain>, stage: Stage, h: nat,
                 chains': map<nat, Chain>)
    requires RingOk(ring, idx, log, from, chains, stage) && h < 8
    requires forall k: nat :: from <= k < |log| ==> log[k] < 8 && log[k] != h
    requires h in chains' && chains'[h].stage == stage
    requires forall x :: x in chains && chains[x].stage == stage ==> x in chains' && chains'[x].stage == stage
    requires forall x :: x in chains' && chains'[x].stage == stage && x != h ==> x in chains && chains[x].stage == stage
    ensures RingOk(ring[idx % 8 := h], (idx + 1) % 65536, log + [h], from, chains', stage)
  {
    IndexWraps(|log|);
    var log' := log + [h];
    var wait := log'[from..];
    assert forall i :: 0 <= i < |wait| ==> wait[i] == log'[from + i];
    Pigeons(wait, 8);
    var ring' := ring[idx % 8 := h];
    forall k: nat | from <= k < |log'|
      ensures ring'[k % 8] == log'[k] && log'[k] in chains' && chains'[log'[k]].stage == stage
    {
      if k < |log| { SlotsDiffer(k, |log|); }
    }
    assert wait == log[from..] + [h];
  }

  /** The oldest entry leaves the ring; its chain changes stage. */
  lemma RingPop(ring: seq<nat>, idx: nat, log: seq<nat>, from: nat, chains: map<nat, Chain>, stage: Stage,
                chains': map<nat, Chain>)
    requires RingOk(ring, idx, log, from, chains, stage) && from < |log|
    requires forall x :: x in chains && x != log[from] ==> x in chains' && chains'[x].stage == chains[x].stage
    requires forall x :: x in chains' ==> x in chains && (x == log[from] ==> chains'[x].stage != stage)
    ensures RingOk(ring, idx, log, from + 1, chains', stage)
  {
    assert log[from..] == [log[from]] + log[from + 1..];
  }

  lemma RingFrame(ring: seq<nat>, idx: nat, log: seq<nat>, from: nat, chains: map<nat, Chain>, stage: Stage,
                  chains': map<nat, Chain>)
    requires RingOk(ring, idx, log, from, chains, stage)
    requires forall x :: x in chains && chains[x].stage == stage ==> x in chains' && chains'[x].stage == stage
    requires forall x :: x in chains' && chains'[x].stage == stage ==> x in chains && chains[x].stage == stage
    ensures RingOk(ring, idx, log, from, chains', stage)
  {
  }

  /** The driver's test used_idx != used->idx means that an entry is waiting. */
  lemma UsedWaiting(d: Drv, g: History)
    requires Inv(d, g)
    ensures d.usedIdx != d.usedRingIdx <==> g.seen < |g.finished|
    ensures d.usedIdx % 8 == g.seen % 8
  {
    hide ChainsOk, AllAccounted, BufsDiffer;
    IndexWraps(g.seen);
  }

  // ------------------------------------------------------------ chains appear and disappear

  /** virtio_disk_rw formats three descriptors, records the buffer and posts the head. */
  function Post(d: Drv, h: nat, mid: nat, last: nat, b: nat): Drv
    requires |d.free| == 8 && |d.desc| == 8 && |d.info| == 8 && |d.availRing| == 8 && h < 8 && mid < 8 && last < 8
  {
    d.(free := d.free[h := false][mid := false][last := false],
       desc := d.desc[h := Desc(true, mid)][mid := Desc(true, last)][last := Desc(false, 0)],
       info := d.info[h := Some(b)], busy := d.busy + {b},
       availRing := d.availRing[d.availIdx % 8 := h], availIdx := (d.availIdx + 1) % 65536)
  }

  function PostHistory(g: History, h: nat, mid: nat, last: nat, b: nat): History
    requires |g.of| == 8 && h < 8 && mid < 8 && last < 8
  {
    g.(of := g.of[h := Some(h)][mid := Some(h)][last := Some(h)],
       chains := g.chains[h := Chain(mid, last, b, Posted)], posted := g.posted + [h])
  }

  /** Three different free descriptors and a buffer that is in no chain. */
  ghost predicate CanPost(d: Drv, g: History, h: nat, mid: nat, last: nat, b: nat) {
    && h < 8 && mid < 8 && last < 8 && h != mid && mid != last && h != last
    && |d.free| == 8 && |g.of| == 8 && d.free[h] && d.free[mid] && d.free[last]
    && forall x :: x in g.chains ==> g.chains[x].buf != b
  }

  lemma Sizes(d: Drv, g: History)
    requires Inv(d, g)
    ensures |d.free| == 8 && |d.desc| == 8 && |d.info| == 8 && |d.availRing| == 8 && |d.usedRing| == 8 && |g.of| == 8
  {
    hide ChainsOk, BufsDiffer;
  }

  lemma Facts(d: Drv, g: History, i: nat)
    requires Inv(d, g) && i < 8
    ensures |d.free| == 8 && |g.of| == 8 && OwnOk(d.free, g.of, g.chains, i)
  {
    hide ChainsOk, BufsDiffer, RingOk;
  }

  lemma PostChain(d: Drv, g: History, h: nat, mid: nat, last: nat, b: nat, x: nat)
    requires Inv(d, g) && CanPost(d, g, h, mid, last, b) && x in g.chains
    ensures x != h && ChainOk(Post(d, h, mid, last, b), PostHistory(g, h, mid, last, b).of, x, g.chains[x])
  {
    Sizes(d, g);
    Facts(d, g, h);
    Facts(d, g, mid);
    Facts(d, g, last);
    hide RingOk, AllAccounted, BufsDiffer;
    assert ChainOk(d, g.of, x, g.chains[x]);
  }

  lemma PostAccounted(d: Drv, g: History, h: nat, mid: nat, last: nat, b: nat)
    requires Inv(d, g) && CanPost(d, g, h, mid, last, b)
    ensures AllAccounted(Post(d, h, mid, last, b).free, PostHistory(g, h, mid, last, b).of,
            PostHistory(g, h, mid, last, b).chains)
  {
    Sizes(d, g);
    Facts(d, g, h);
    var d', g' := Post(d, h, mid, last, b), PostHistory(g, h, mid, last, b);
    forall i: nat | i < 8 ensures OwnOk(d'.free, g'.of, g'.chains, i) {
      Facts(d, g, i);
      if g.of[i].Some? { ChainHead(d, g, g.of[i].value); }
    }
  }

  lemma ChainHead(d: Drv, g: History, h: nat)
    requires Inv(d, g) && h in g.chains
    ensures h < 8 && |d.free| == 8 && |g.of| == 8 && g.of[h] == Some(h) && !d.free[h] &&
            ChainOk(d, g.of, h, g.chains[h])
  {
    hide RingOk, BufsDiffer;
    assert ChainOk(d, g.of, h, g.chains[h]);
    assert OwnOk(d.free, g.of, g.chains, h);
  }

  lemma PostOk(d: Drv, g: History, h: nat, mid: nat, last: nat, b: nat)
    requires Inv(d, g) && CanPost(d, g, h, mid, last, b)
    ensures |d.desc| == 8 && |d.info| == 8 && |d.availRing| == 8 &&
            Inv(Post(d, h, mid, last, b), PostHistory(g, h, mid, last, b))
  {
    hide ChainsOk, AllAccounted, RingOk, ChainOk, BufsDiffer;
    Sizes(d, g);
    var d', g' := Post(d, h, mid, last, b), PostHistory(g, h, mid, last, b);
    PostAccounted(d, g, h, mid, last, b);
    forall x | x in g.chains ensures x != h && x < 8 && ChainOk(d', g'.of, x, g.chains[x]) {
      PostChain(d, g, h, mid, last, b, x);
      ChainHead(d, g, x);
    }
    NewChain(d, g, h, mid, last, b);
    assert ChainsOk(d', g'.of, g'.chains) by { ChainsIntro(d', g'); }
    BufsMore(g.chains, h, g'.chains[h]);
    Waiting(d, g);
    RingPush(d.availRing, d.availIdx, g.posted, g.taken, g.chains, Posted, h, g'.chains);
    RingFrame(d.usedRing, d.usedRingIdx, g.finished, g.seen, g.chains, Finished, g'.chains);
  }

  lemma NewChain(d: Drv, g: History, h: nat, mid: nat, last: nat, b: nat)
    requires Inv(d, g) && CanPost(d, g, h, mid, last, b)
    ensures |d.desc| == 8 && |d.info| == 8 && |d.availRing| == 8
    ensures ChainOk(Post(d, h, mid, last, b), PostHistory(g, h, mid, last, b).of, h, Chain(mid, last, b, Posted))
  {
    hide ChainsOk, AllAccounted, BufsDiffer;
    Sizes(d, g);
  }

  lemma ChainsIntro(d: Drv, g: History)
    requires forall x :: x in g.chains ==> ChainOk(d, g.of, x, g.chains[x])
    ensures ChainsOk(d, g.of, g.chains)
  {
  }

  lemma BufsMore(chains: map<nat, Chain>, h: nat, c: Chain)
    requires BufsDiffer(chains) && h !in chains && forall x :: x in chains ==> chains[x].buf != c.buf
    ensures BufsDiffer(chains[h := c])
  {
  }

  /** Entries waiting in a ring are heads of chains. */
  lemma Waiting(d: Drv, g: History)
    requires Inv(d, g)
    ensures forall k: nat :: g.taken <= k < |g.posted| ==> g.posted[k] in g.chains && g.posted[k] < 8
    ensures forall k: nat :: g.seen <= k < |g.finished| ==> g.finished[k] in g.chains && g.finished[k] < 8
  {
    hide ChainsOk, AllAccounted, BufsDiffer;
    forall x | x in g.chains ensures x < 8 {
      ChainHead(d, g, x);
    }
  }

  function SetStage(chains: map<nat, Chain>, h: nat, stage: Stage): map<nat, Chain>
    requires h in chains
  {
    chains[h := chains[h].(stage := stage)]
  }

  /** Changing the stage of one chain, and its buffer's disk field if it is now seen. */
  lemma StageOk(d: Drv, g: History, h: nat, stage: Stage, d': Drv)
    requires Inv(d, g) && h in g.chains && g.chains[h].stage != Seen
    requires d'.desc == d.desc && d'.info == d.info && d'.free == d.free
    requires d'.busy == if stage == Seen then d.busy - {g.chains[h].buf} else d.busy
    ensures var chains' := SetStage(g.chains, h, stage);
            ChainsOk(d', g.of, chains') && BufsDiffer(chains') && AllAccounted(d'.free, g.of, chains')
  {
    hide RingOk;
    var chains' := SetStage(g.chains, h, stage);
    forall x | x in chains' ensures ChainOk(d', g.of, x, chains'[x]) {
      assert ChainOk(d, g.of, x, g.chains[x]) && ChainOk(d, g.of, h, g.chains[h]);
      assert x != h ==> g.chains[x].buf != g.chains[h].buf;
    }
    forall i: nat | i < 8 ensures OwnOk(d'.free, g.of, chains', i) {
      assert OwnOk(d.free, g.of, g.chains, i);
    }
  }

  /** The device reads the next entry of the avail ring. */
  function TakeHistory(g: History): History
    requires g.taken < |g.posted| && g.posted[g.taken] in g.chains
  {
    g.(taken := g.taken + 1, chains := SetStage(g.chains, g.posted[g.taken], Taken))
  }

  lemma NextPosted(d: Drv, g: History)
    requires Inv(d, g) && g.taken < |g.posted|
    ensures |d.availRing| == 8 && d.availRing[g.taken % 8] == g.posted[g.taken]
    ensures g.posted[g.taken] in g.chains && g.chains[g.posted[g.taken]].stage == Posted
  {
    hide ChainsOk, AllAccounted, BufsDiffer;
  }

  lemma TakeOk(d: Drv, g: History)
    requires Inv(d, g) && g.taken < |g.posted|
    ensures |d.availRing| == 8 && g.posted[g.taken] in g.chains && d.availRing[g.taken % 8] == g.posted[g.taken] &&
            Inv(d, TakeHistory(g))
  {
    hide ChainsOk, AllAccounted, RingOk, BufsDiffer;
    NextPosted(d, g);
    StageOk(d, g, g.posted[g.taken], Taken, d);
    var g' := TakeHistory(g);
    RingPop(d.availRing, d.availIdx, g.posted, g.taken, g.chains, Posted, g'.chains);
    RingFrame(d.usedRing, d.usedRingIdx, g.finished, g.seen, g.chains, Finished, g'.chains);
  }

  /** The device completes a chain it has taken, in any order. */
  function Complete(d: Drv, h: nat): Drv
    requires |d.usedRing| == 8
  {
    d.(usedRing := d.usedRing[d.usedRingIdx % 8 := h], usedRingIdx := (d.usedRingIdx + 1) % 65536)
  }

  function CompleteHistory(g: History, h: nat): History
    requires h in g.chains
  {
    g.(finished := g.finished + [h], chains := SetStage(g.chains, h, Finished))
  }

  lemma CompleteOk(d: Drv, g: History, h: nat)
    requires Inv(d, g) && h in g.chains && g.chains[h].stage == Taken
    ensures |d.usedRing| == 8 && Inv(Complete(d, h), CompleteHistory(g, h))
  {
    hide ChainsOk, AllAccounted, RingOk, BufsDiffer;
    Sizes(d, g);
    var d', g' := Complete(d, h), CompleteHistory(g, h);
    StageOk(d, g, h, Finished, d');
    ChainHead(d, g, h);
    Waiting(d, g);
    NotWaiting(d, g, h);
    RingPush(d.usedRing, d.usedRingIdx, g.finished, g.seen, g.chains, Finished, h, g'.chains);
    RingFrame(d.availRing, d.availIdx, g.posted, g.taken, g.chains, Posted, g'.chains);
  }

  lemma NotWaiting(d: Drv, g: History, h: nat)
    requires Inv(d, g) && h in g.chains && g.chains[h].stage == Taken
    ensures forall k: nat :: g.seen <= k < |g.finished| ==> g.finished[k] != h
  {
    hide ChainsOk, AllAccounted, BufsDiffer;
  }

  /** One round of virtio_disk_intr. */
  function See(d: Drv): Drv
    requires |d.usedRing| == 8 && |d.info| == 8 && d.usedRing[d.usedIdx % 8] < 8 &&
             d.info[d.usedRing[d.usedIdx % 8]].Some?
  {
    d.(busy := d.busy - {d.info[d.usedRing[d.usedIdx % 8]].value}, usedIdx := (d.usedIdx + 1) % 65536)
  }

  function SeeHistory(g: History): History
    requires g.seen < |g.finished| && g.finished[g.seen] in g.chains
  {
    g.(seen := g.seen + 1, chains := SetStage(g.chains, g.finished[g.seen], Seen))
  }

  /** The entry read names a chain whose buffer is waiting. */
  lemma NextUsed(d: Drv, g: History)
    requires Inv(d, g) && g.seen < |g.finished|
    ensures |d.usedRing| == 8 && |d.info| == 8 && d.usedRing[d.usedIdx % 8] == g.finished[g.seen] < 8
    ensures g.finished[g.seen] in g.chains && g.chains[g.finished[g.seen]].stage == Finished
    ensures var c := g.chains[g.finished[g.seen]];
            d.info[g.finished[g.seen]] == Some(c.buf) && c.buf in d.busy
  {
    hide ChainsOk, AllAccounted, BufsDiffer;
    UsedWaiting(d, g);
    ChainHead(d, g, g.finished[g.seen]);
  }

  lemma SeeOk(d: Drv, g: History)
    requires Inv(d, g) && g.seen < |g.finished|
    ensures |d.usedRing| == 8 && |d.info| == 8 && d.usedRing[d.usedIdx % 8] < 8 &&
            d.info[d.usedRing[d.usedIdx % 8]].Some?
    ensures g.finished[g.seen] in g.chains && Inv(See(d), SeeHistory(g))
  {
    hide ChainsOk, AllAccounted, RingOk, BufsDiffer;
    NextUsed(d, g);
    IndexWraps(g.seen);
    var d', g' := See(d), SeeHistory(g);
    StageOk(d, g, g.finished[g.seen], Seen, d');
    Sizes(d, g);
    RingPop(d.usedRing, d.usedRingIdx, g.finished, g.seen, g.chains, Finished, g'.chains);
    RingFrame(d.availRing, d.availIdx, g.posted, g.taken, g.chains, Posted, g'.chains);
  }

  // ------------------------------------------------------------ a chain is given back

  /** free_desc. */
  function FreeDesc(d: Drv, i: nat): Drv
    requires |d.free| == 8 && |d.desc| == 8 && i < 8
  {
    d.(free := d.free[i := true], desc := d.desc[i := Desc(false, 0)])
  }

  /** The driver after a chain is freed and its buffer forgotten. */
  function Drop(d: Drv, h: nat, mid: nat, last: nat): Drv
    requires |d.free| == 8 && |d.desc| == 8 && |d.info| == 8 && h < 8 && mid < 8 && last < 8
  {
    FreeDesc(FreeDesc(FreeDesc(d.(info := d.info[h := None]), h), mid), last)
  }

  function DropHistory(g: History, h: nat): History
    requires h in g.chains && |g.of| == 8 && h < 8 && g.chains[h].mid < 8 && g.chains[h].last < 8
  {
    g.(of := g.of[h := None][g.chains[h].mid := None][g.chains[h].last := None], chains := g.chains - {h})
  }

  lemma DropOk(d: Drv, g: History, h: nat)
    requires Inv(d, g) && h in g.chains && g.chains[h].stage == Seen
    ensures |d.free| == 8 && |d.desc| == 8 && |d.info| == 8 && |g.of| == 8 && ChainOk(d, g.of, h, g.chains[h])
    ensures Inv(Drop(d, h, g.chains[h].mid, g.chains[h].last), DropHistory(g, h))
  {
    hide ChainsOk, AllAccounted, RingOk, BufsDiffer;
    Sizes(d, g);
    ChainHead(d, g, h);
    var d', g' := Drop(d, h, g.chains[h].mid, g.chains[h].last), DropHistory(g, h);
    DropChains(d, g, h);
    DropAccounted(d, g, h);
    RingFrame(d.availRing, d.availIdx, g.posted, g.taken, g.chains, Posted, g'.chains);
    RingFrame(d.usedRing, d.usedRingIdx, g.finished, g.seen, g.chains, Finished, g'.chains);
  }

  lemma DropChains(d: Drv, g: History, h: nat)
    requires Inv(d, g) && h in g.chains && ChainOk(d, g.of, h, g.chains[h]) && |d.free| == 8
    ensures ChainsOk(Drop(d, h, g.chains[h].mid, g.chains[h].last), DropHistory(g, h).of, DropHistory(g, h).chains)
    ensures BufsDiffer(DropHistory(g, h).chains)
  {
    hide AllAccounted, RingOk;
    var d', g' := Drop(d, h, g.chains[h].mid, g.chains[h].last), DropHistory(g, h);
    forall x | x in g'.chains ensures ChainOk(d', g'.of, x, g'.chains[x]) {
      assert ChainOk(d, g.of, x, g.chains[x]);
    }
  }

  lemma DropAccounted(d: Drv, g: History, h: nat)
    requires Inv(d, g) && h in g.chains && ChainOk(d, g.of, h, g.chains[h]) && |d.free| == 8
    ensures AllAccounted(Drop(d, h, g.chains[h].mid, g.chains[h].last).free, DropHistory(g, h).of,
            DropHistory(g, h).chains)
  {
    hide ChainsOk, RingOk, BufsDiffer;
    var d', g' := Drop(d, h, g.chains[h].mid, g.chains[h].last), DropHistory(g, h);
    forall i: nat | i < 8 ensures OwnOk(d'.free, g'.of, g'.chains, i) {
      assert OwnOk(d.free, g.of, g.chains, i);
    }
  }
}
