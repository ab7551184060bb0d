/** When "too big a transaction" can fire, and when a commit has a buffer to work with.
    mkfs makes the log LOGSIZE blocks long (mkfs/mkfs.c), so log_write's second limit is
    LOGSIZE - 1, one below what begin_op reserves. And log_write tests its limits before it
    looks for the block in the header, so in a full log even a block that is listed already
    makes it panic. */
module LogLimits {
  import opened Base
  import opened Blocks
  import opened LogFormat
  import opened LogMachine
  import opened LogRuns

  /** A log_write within the allowance of its operation: of a new block, or again of one that
      the operation has logged. */
  ghost predicate AllowedWrite(g: Geometry, s: State, p: Pid, b: nat) {
    Holds(s, p, b) && p in s.ops && g.IsHome(b) && |s.ops[p] + {b}| <= MAXOPBLOCKS
  }

  /** log_write never panics on a block that is new to an operation, in any reachable state. */
  ghost predicate NeverTooBig(g: Geometry) {
    forall s, p, b :: Reachable(g, s) && AllowedWrite(g, s, p, b) && b !in s.ops[p] ==> !LogWritePanics(g, s)
  }

  /** Some operation logs a block of its own again, and log_write panics. */
  ghost predicate PanicsAgain(g: Geometry, s: State, p: Pid, b: nat) {
    Reachable(g, s) && AllowedWrite(g, s, p, b) && b in s.ops[p] && LogWritePanics(g, s)
  }

  /** The k-th home block of the disk. */
  function Home(g: Geometry, k: nat): nat {
    if k < g.start then k else k + g.size
  }

  function Quiet(d: Disk, b: nat, refcnt: nat): Buf
    requires b < |d|
  {
    Buf(true, d[b], refcnt, 0, None, false)
  }

  /** The cache, the header, the allowances and the logged contents when the first `k` home
      blocks have been logged, ten by each of processes 0, 1 and 2. */
  function FullCache(g: Geometry, d: Disk, k: nat): map<nat, Buf>
    requires g.Valid() && |d| == g.blocks && k <= g.blocks - g.size
  {
    if k == 0 then map[g.start := Quiet(d, g.start, 0)]
    else FullCache(g, d, k - 1)[Home(g, k - 1) := Quiet(d, Home(g, k - 1), 1)]
  }

  function FullHeader(g: Geometry, k: nat): seq<nat> {
    if k == 0 then [] else FullHeader(g, k - 1) + [Home(g, k - 1)]
  }

  function FullOps(g: Geometry, k: nat): map<Pid, set<nat>>
    ensures k <= 29 ==> FullOps(g, k).Keys == {0, 1, 2}
  {
    if k == 0 then map[0 := {}, 1 := {}, 2 := {}]
    else
      var m := FullOps(g, k - 1);
      var p := (k - 1) / 10;
      if p in m then m[p := m[p] + {Home(g, k - 1)}] else m
  }

  function FullLogged(g: Geometry, d: Disk, k: nat): map<nat, Block>
    requires g.Valid() && |d| == g.blocks && k <= g.blocks - g.size
  {
    if k == 0 then map[] else FullLogged(g, d, k - 1)[Home(g, k - 1) := d[Home(g, k - 1)]]
  }

  function Full(g: Geometry, d: Disk, k: nat): State
    requires g.Valid() && |d| == g.blocks && k <= g.blocks - g.size
  {
    State(d, FullCache(g, d, k), FullHeader(g, k), 3, FullOps(g, k), FullLogged(g, d, k), Running)
  }

  lemma {:induction false} FullHeaderShape(g: Geometry, k: nat)
    ensures |FullHeader(g, k)| == k
    ensures forall i :: k <= i ==> Home(g, i) !in FullHeader(g, k)
  {
    if k > 0 { FullHeaderShape(g, k - 1); }
  }

  lemma FullCacheShape(g: Geometry, d: Disk, k: nat)
    requires g.Valid() && |d| == g.blocks && k <= g.blocks - g.size
    ensures |FullCache(g, d, k)| == k + 1
    ensures forall i :: k <= i ==> Home(g, i) !in FullCache(g, d, k)
    ensures g.start in FullCache(g, d, k) && FullCache(g, d, k)[g.start].refcnt == 0
    ensures forall c :: c in FullCache(g, d, k) ==>
              (c == g.start || (g.IsHome(c) && FullCache(g, d, k)[c].refcnt > 0)) && !FullCache(g, d, k)[c].dirty
  {
    hide FullCache, Home;
    FullCacheSize(g, d, k);
    forall c | c in FullCache(g, d, k)
      ensures (c == g.start || (g.IsHome(c) && FullCache(g, d, k)[c].refcnt > 0)) && !FullCache(g, d, k)[c].dirty
    {
      FullCacheBuf(g, d, k, c);
    }
    FullCacheBuf(g, d, k, g.start);
    forall i | k <= i ensures Home(g, i) !in FullCache(g, d, k) {
      FullCacheFresh(g, d, k, i);
    }
  }

  lemma {:induction false} FullCacheSize(g: Geometry, d: Disk, k: nat)
    requires g.Valid() && |d| == g.blocks && k <= g.blocks - g.size
    ensures |FullCache(g, d, k)| == k + 1
  {
    hide FullCache, Home;
    FullCacheIs(g, d, k);
    if k > 0 {
      FullCacheSize(g, d, k - 1);
      FullCacheFresh(g, d, k - 1, k - 1);
      assert FullCache(g, d, k).Keys == FullCache(g, d, k - 1).Keys + {Home(g, k - 1)};
    }
  }

  lemma {:induction false} FullCacheFresh(g: Geometry, d: Disk, k: nat, i: nat)
    requires g.Valid() && |d| == g.blocks && k <= g.blocks - g.size && k <= i
    ensures Home(g, i) !in FullCache(g, d, k)
    decreases k
  {
    hide FullCache;
    FullCacheIs(g, d, k);
    if k > 0 { FullCacheFresh(g, d, k - 1, i); }
  }

  lemma {:induction false} FullCacheBuf(g: Geometry, d: Disk, k: nat, c: nat)
    requires g.Valid() && |d| == g.blocks && k <= g.blocks - g.size
    ensures c == g.start ==> c in FullCache(g, d, k) && FullCache(g, d, k)[c].refcnt == 0
    ensures c in FullCache(g, d, k) ==>
              (c == g.start || (g.IsHome(c) && FullCache(g, d, k)[c].refcnt > 0)) && !FullCache(g, d, k)[c].dirty
    decreases k
  {
    hide FullCache;
    FullCacheIs(g, d, k);
    if k > 0 { FullCacheBuf(g, d, k - 1, c); }
  }

  lemma FullCacheIs(g: Geometry, d: Disk, k: nat)
    requires g.Valid() && |d| == g.blocks && k <= g.blocks - g.size
    ensures FullCache(g, d, k) ==
            if k == 0 then map[g.start := Quiet(d, g.start, 0)]
            else FullCache(g, d, k - 1)[Home(g, k - 1) := Quiet(d, Home(g, k - 1), 1)]
  {
  }

  lemma FullOpsShape(g: Geometry, k: nat)
    requires k <= 29
    ensures forall p :: 0 <= p < 3 ==>
              |FullOps(g, k)[p]| == if k <= 10 * p then 0 else if k <= 10 * p + 10 then k - 10 * p else 10
    ensures forall p, i :: 0 <= p < 3 && k <= i ==> Home(g, i) !in FullOps(g, k)[p]
  {
    hide FullOps, Home;
    forall p: nat | p < 3
      ensures |FullOps(g, k)[p]| == if k <= 10 * p then 0 else if k <= 10 * p + 10 then k - 10 * p else 10
    {
      FullOpsSize(g, k, p);
    }
    forall p: nat, i: nat | p < 3 && k <= i ensures Home(g, i) !in FullOps(g, k)[p] {
      FullOpsFresh(g, k, p, i);
    }
  }

  lemma {:induction false} FullOpsFresh(g: Geometry, k: nat, p: nat, i: nat)
    requires k <= 29 && p < 3 && k <= i
    ensures Home(g, i) !in FullOps(g, k)[p]
    decreases k
  {
    hide FullOps;
    FullOpsIs(g, k);
    if k > 0 { FullOpsFresh(g, k - 1, p, i); }
  }

  lemma {:induction false} FullOpsSize(g: Geometry, k: nat, p: nat)
    requires k <= 29 && p < 3
    ensures |FullOps(g, k)[p]| == if k <= 10 * p then 0 else if k <= 10 * p + 10 then k - 10 * p else 10
    decreases k
  {
    hide FullOps;
    FullOpsIs(g, k);
    if k > 0 {
      FullOpsSize(g, k - 1, p);
      FullOpsFresh(g, k - 1, p, k - 1);
    }
  }

  lemma FullOpsIs(g: Geometry, k: nat)
    requires k <= 29
    ensures FullOps(g, 0) == map[0 := {}, 1 := {}, 2 := {}]
    ensures k > 0 ==>
              var m, p := FullOps(g, k - 1), (k - 1) / 10;
              FullOps(g, k) == m[p := m[p] + {Home(g, k - 1)}]
  {
  }

  lemma {:induction false} RunAppend(g: Geometry, s: State, a: seq<Step>, step: Step)
    requires CanRun(g, s, a) && Enabled(g, RunTo(g, s, a), step)
    ensures CanRun(g, s, a + [step]) && RunTo(g, s, a + [step]) == Apply(g, RunTo(g, s, a), step)
    decreases |a|
  {
    if a == [] {
      assert a + [step] == [step];
      assert CanRun(g, Apply(g, s, step), [step][1..]);
    } else {
      assert (a + [step])[0] == a[0] && (a + [step])[1..] == a[1..] + [step];
      RunAppend(g, Apply(g, s, a[0]), a[1..], step);
    }
  }

  /** A reachable state stays reachable through any enabled step. */
  lemma ReachStep(g: Geometry, s: State, step: Step)
    requires Reachable(g, s) && Enabled(g, s, step)
    ensures Reachable(g, Apply(g, s, step))
  {
    var d, a :| DiskOk(g, d) && CanRun(g, PowerOn(d), a) && RunTo(g, PowerOn(d), a) == s;
    RunAppend(g, PowerOn(d), a, step);
  }

  /** bread of an uncached block into a spare or a recycled buffer. */
  lemma ReadOne(g: Geometry, s: State, p: Pid, b: nat, victim: Option<nat>) returns (t: State)
    requires Reachable(g, s) && |s.disk| == g.blocks && b < g.blocks && b !in s.cache && BgetFinds(s, b, victim)
    ensures Reachable(g, t)
    ensures t == s.(cache := (if victim.Some? then s.cache - {victim.value} else s.cache)
                             [b := Buf(true, s.disk[b], 1, 0, Some(p), false)])
  {
    hide Reachable;
    ReachStep(g, s, Bget(p, b, victim));
    var s1 := DoBget(s, b, victim);
    ReachStep(g, s1, Lock(p, b));
    t := DoLock(s1, p, b);
  }

  function LoggedOne(s: State, p: Pid, b: nat): State
    requires p in s.ops && b < |s.disk|
  {
    s.(cache := s.cache[b := Quiet(s.disk, b, 1)], lh := s.lh + [b],
       ops := s.ops[p := s.ops[p] + {b}], logged := s.logged[b := s.disk[b]])
  }

  /** log_write and brelse of a block that is held and not yet in the header. */
  lemma StillRoom(g: Geometry, s: State, t: State)
    requires t.lh == s.lh && t.ops == s.ops && t.outstanding == s.outstanding
    ensures LogWritePanics(g, t) == LogWritePanics(g, s)
  {
  }

  lemma LogHeld(g: Geometry, s: State, p: Pid, b: nat)
    requires Reachable(g, s) && Holds(s, p, b) && g.IsHome(b) && b < |s.disk|
    requires s.cache[b] == Buf(true, s.disk[b], 1, 0, Some(p), false)
    requires p in s.ops && |s.ops[p]| < MAXOPBLOCKS && b !in s.lh && !LogWritePanics(g, s)
    ensures Reachable(g, LoggedOne(s, p, b))
  {
    hide Reachable;
    assert |s.ops[p] + {b}| <= MAXOPBLOCKS;
    ReachStep(g, s, LogWrite(p, b));
    var t := DoLogWrite(s, p, b);
    ReachStep(g, t, Brelse(p, b));
    assert DoBrelse(t, b).cache == LoggedOne(s, p, b).cache;
  }

  /** bread, log_write and brelse of a fresh block by an operation within its allowance. */
  lemma LogOne(g: Geometry, s: State, p: Pid, b: nat)
    requires Reachable(g, s) && |s.disk| == g.blocks && g.IsHome(b) && b !in s.cache && |s.cache| < NBUF
    requires p in s.ops && |s.ops[p]| < MAXOPBLOCKS && b !in s.lh && !LogWritePanics(g, s)
    ensures Reachable(g, LoggedOne(s, p, b))
  {
    hide Reachable, LogWritePanics, Header;
    var t := ReadOne(g, s, p, b, None);
    assert t.lh == s.lh && t.ops == s.ops && t.outstanding == s.outstanding;
    StillRoom(g, s, t);
    LogHeld(g, t, p, b);
    assert LoggedOne(t, p, b).cache == LoggedOne(s, p, b).cache;
  }

  lemma FullReady(g: Geometry, d: Disk, k: nat)
    requires g.Valid() && |d| == g.blocks && k < g.blocks - g.size && k <= 29
    ensures var s, p, b := Full(g, d, k), k / 10, Home(g, k);
            && g.IsHome(b) && b !in s.cache && |s.cache| == k + 1
            && p in s.ops && |s.ops[p]| < MAXOPBLOCKS && b !in s.ops[p] && b !in s.lh && |s.lh| == k
            && g.start in s.cache && s.cache[g.start].refcnt == 0
  {
    FullHeaderShape(g, k);
    FullCacheShape(g, d, k);
    FullOpsShape(g, k);
  }

  lemma FullNext(g: Geometry, d: Disk, k: nat)
    requires g.Valid() && |d| == g.blocks && k < g.blocks - g.size && k < 29
    requires k / 10 in FullOps(g, k)
    ensures LoggedOne(Full(g, d, k), k / 10, Home(g, k)) == Full(g, d, k + 1)
  {
  }

  lemma FillOne(g: Geometry, d: Disk, k: nat)
    requires g.Valid() && |d| == g.blocks && k < g.blocks - g.size && k < g.size - 1 && k < 29
    requires Reachable(g, Full(g, d, k))
    ensures Reachable(g, Full(g, d, k + 1))
  {
    FullReady(g, d, k);
    FullNext(g, d, k);
    LogOne(g, Full(g, d, k), k / 10, Home(g, k));
  }

  lemma Fill(g: Geometry, d: Disk, n: nat)
    requires g.Valid() && |d| == g.blocks && n <= g.blocks - g.size && n <= g.size - 1 && n <= 29
    requires Reachable(g, Full(g, d, 0))
    ensures Reachable(g, Full(g, d, n))
  {
    for k := 0 to n
      invariant Reachable(g, Full(g, d, k))
    {
      FillOne(g, d, k);
    }
  }

  lemma ReadEmptyHead(g: Geometry, s: State)
    requires Reachable(g, s) && DiskOk(g, s.disk) && s.phase.Boot?
    requires Header(s.disk[g.start]) == [] && Holds(s, 0, g.start)
    ensures Reachable(g, s.(lh := [], logged := map[], phase := Recovering(0, 0)))
  {
    ReachStep(g, s, ReadHead(0));
  }

  lemma ClearEmptyHead(g: Geometry, s: State)
    requires Reachable(g, s) && s.phase == Recovering(0, 0) && s.lh == [] && s.logged == map[]
    requires g.start < |s.disk| && g.start in s.cache
    requires EncodeHeader(s.disk[g.start], []) == s.disk[g.start]
    requires s.cache[g.start] == Buf(true, s.disk[g.start], 1, 0, Some(0), false)
    ensures Reachable(g, s.(cache := s.cache[g.start := Quiet(s.disk, g.start, 0)], phase := Running))
  {
    ReachStep(g, s, ClearHead(0));
    var t := DoClearHead(g, s);
    assert t == s.(phase := Running);
    ReachStep(g, t, Brelse(0, g.start));
  }

  /** Booting on an already empty log. */
  lemma ReachPowerOn(g: Geometry, d: Disk)
    requires DiskOk(g, d)
    ensures Reachable(g, PowerOn(d))
  {
    assert CanRun(g, PowerOn(d), []) && RunTo(g, PowerOn(d), []) == PowerOn(d);
  }

  lemma BootEmpty(g: Geometry, d: Disk)
    requires DiskOk(g, d) && Header(d[g.start]) == [] && EncodeHeader(d[g.start], []) == d[g.start]
    ensures Reachable(g, State(d, map[g.start := Quiet(d, g.start, 0)], [], 0, map[], map[], Running))
  {
    hide Reachable, Header, EncodeHeader;
    var s0 := PowerOn(d);
    ReachPowerOn(g, d);
    var s2 := ReadOne(g, s0, 0, g.start, None);
    ReadEmptyHead(g, s2);
    ClearEmptyHead(g, s2.(lh := [], logged := map[], phase := Recovering(0, 0)));
    assert s2.cache[g.start := Quiet(d, g.start, 0)] == map[g.start := Quiet(d, g.start, 0)];
  }

  lemma Begin3(g: Geometry, d: Disk)
    requires g.Valid() && |d| == g.blocks
    requires Reachable(g, State(d, map[g.start := Quiet(d, g.start, 0)], [], 0, map[], map[], Running))
    ensures Reachable(g, Full(g, d, 0))
  {
    var s0 := State(d, map[g.start := Quiet(d, g.start, 0)], [], 0, map[], map[], Running);
    ReachStep(g, s0, BeginOp(0));
    var s1 := Apply(g, s0, BeginOp(0));
    ReachStep(g, s1, BeginOp(1));
    var s2 := Apply(g, s1, BeginOp(1));
    ReachStep(g, s2, BeginOp(2));
    assert Apply(g, s2, BeginOp(2)) == Full(g, d, 0);
  }

  lemma BlankDisk(g: Geometry) returns (d: Disk)
    requires g.Valid()
    ensures |d| == g.blocks && DiskOk(g, d) && Header(d[g.start]) == []
    ensures d[g.start] == EncodeHeader(ZeroBlock(), []) && EncodeHeader(d[g.start], []) == d[g.start]
  {
    var h := EncodeHeader(ZeroBlock(), []);
    d := seq(g.blocks, _ => h);
    HeaderRoundTrip(ZeroBlock(), []);
    WordSetWord(ZeroBlock(), 0, 0, 0);
    assert SetWord(h, 0, 0) == h;
  }

  /** A full log: the next new block of an operation within its allowance makes log_write panic. */
  lemma FullOverflows(g: Geometry, d: Disk)
    requires g.Valid() && |d| == g.blocks && g.size <= LOGSIZE && g.blocks - g.size >= LOGSIZE
    requires Reachable(g, Full(g, d, g.size - 1))
    ensures !NeverTooBig(g)
  {
    var k := g.size - 1;
    FullReady(g, d, k);
    var b, p := Home(g, k), k / 10;
    var t := ReadOne(g, Full(g, d, k), p, b, Some(g.start));
    assert AllowedWrite(g, t, p, b) && b !in t.ops[p] && LogWritePanics(g, t);
  }

  /** With a log of at most LOGSIZE blocks, three operations inside their allowances reach a
      log_write that panics. */
  lemma ShortLogOverflows(g: Geometry)
    requires g.Valid() && g.size <= LOGSIZE && g.blocks - g.size >= LOGSIZE
    ensures !NeverTooBig(g)
  {
    hide Reachable, Header, EncodeHeader, Full, NeverTooBig;
    var d := BlankDisk(g);
    BootEmpty(g, d);
    Begin3(g, d);
    Fill(g, d, g.size - 1);
    FullOverflows(g, d);
  }

  /** Exact condition: on a disk with at least LOGSIZE home blocks, log_write can never panic
      on an allowed new block if and only if the log area has more than LOGSIZE blocks. */
  lemma TooBigExactly(g: Geometry)
    requires g.Valid() && g.blocks - g.size >= LOGSIZE
    ensures NeverTooBig(g) <==> g.size > LOGSIZE
  {
    if g.size > LOGSIZE {
      forall s, p, b | Reachable(g, s) && AllowedWrite(g, s, p, b) && b !in s.ops[p] ensures !LogWritePanics(g, s) {
        ReservationHolds(g, s, p);
      }
    } else {
      ShortLogOverflows(g);
    }
  }

  /** Three operations that spend all they may in a log of more than LOGSIZE blocks: the last
      one still holds its tenth block. */
  lemma FillToTheBrim(g: Geometry) returns (s: State)
    requires g.Valid() && g.size > LOGSIZE && g.blocks - g.size >= LOGSIZE
    ensures Reachable(g, s) && |s.lh| == LOGSIZE && Holds(s, 2, Home(g, 29)) && g.IsHome(Home(g, 29))
    ensures 2 in s.ops && Home(g, 29) in s.ops[2] && |s.ops[2]| == MAXOPBLOCKS
  {
    hide Reachable, Header, EncodeHeader, FullCache, FullHeader, FullLogged, Home;
    var d := BlankDisk(g);
    BootEmpty(g, d);
    Begin3(g, d);
    Fill(g, d, 29);
    FullReady(g, d, 29);
    FullOpsShape(g, 29);
    var b := Home(g, 29);
    var t := ReadOne(g, Full(g, d, 29), 2, b, Some(g.start));
    ReachStep(g, t, LogWrite(2, b));
    s := DoLogWrite(t, 2, b);
  }

  /** A log of any greater length does not help: a block that the operation has logged before,
      logged again within the allowance, makes log_write panic. */
  lemma FullLogPanics(g: Geometry)
    requires g.Valid() && g.size > LOGSIZE && g.blocks - g.size >= LOGSIZE
    ensures exists s, p, b :: PanicsAgain(g, s, p, b)
  {
    var s := FillToTheBrim(g);
    var b := Home(g, 29);
    assert s.ops[2] + {b} == s.ops[2];
    assert PanicsAgain(g, s, 2, b);
  }

  lemma AllSpent(ops: map<Pid, set<nat>>, q: Pid)
    requires (forall p :: p in ops ==> |ops[p]| <= MAXOPBLOCKS) && Unspent(ops) <= 0 && q in ops
    ensures |ops[q]| == MAXOPBLOCKS
  {
    UnspentRemove(ops, q);
    UnspentBounds(Without(ops, q));
  }

  /** Exact condition for an allowed write, new or not: log_write panics if and only if the log
      is full. In a log of more than LOGSIZE blocks that takes every outstanding operation to
      have spent its whole allowance, so only a block logged before can be hit. */
  lemma PanicExactly(g: Geometry, s: State, p: Pid, b: nat)
    requires Reachable(g, s) && AllowedWrite(g, s, p, b)
    ensures LogWritePanics(g, s) <==> |s.lh| == if g.size > LOGSIZE then LOGSIZE else g.size - 1
    ensures LogWritePanics(g, s) && g.size > LOGSIZE ==>
              b in s.ops[p] && forall q :: q in s.ops ==> |s.ops[q]| == MAXOPBLOCKS
  {
    ReachableInv(g, s);
    ReservationHolds(g, s, p);
    if |s.lh| == LOGSIZE {
      forall q | q in s.ops ensures |s.ops[q]| == MAXOPBLOCKS { AllSpent(s.ops, q); }
    }
  }

  // ------------------------------------------------------------ buffers for the commit

  /** The buffers that bget may not recycle. */
  function InUse(s: State): set<nat> {
    set c | c in s.cache && s.cache[c].refcnt > 0
  }

  /** The blocks outside the transaction that processes hold or wait for. */
  function Visited(s: State): set<nat> {
    set c | c in s.cache && c !in Pinned(s) && (s.cache[c].holder.Some? || s.cache[c].waiters > 0)
  }

  /** bget finds a buffer if and only if the block is cached or not all NBUF buffers are in use.
      In use are those of the transaction and those of other blocks that are held or waited for. */
  lemma HasBuffer(g: Geometry, s: State, b: nat)
    requires Inv(g, s)
    ensures (exists v :: BgetFinds(s, b, v)) <==> b in s.cache || |InUse(s)| < NBUF
    ensures |InUse(s)| == |Pinned(s)| + |Visited(s)|
  {
    hide DiskOk, Current;
    InUseIs(g, s);
    if b !in s.cache {
      assert InUse(s) <= s.cache.Keys;
      assert |s.cache.Keys - InUse(s)| == |s.cache.Keys| - |InUse(s)|;
      if |s.cache| < NBUF {
        assert BgetFinds(s, b, None);
      } else if |InUse(s)| < NBUF {
        var v :| v in s.cache.Keys - InUse(s);
        assert BgetFinds(s, b, Some(v));
      } else {
        assert s.cache.Keys - InUse(s) == {};
        assert forall v :: v in s.cache ==> v !in s.cache.Keys - InUse(s);
      }
    } else {
      assert BgetFinds(s, b, None);
    }
  }

  lemma InUseIs(g: Geometry, s: State)
    requires Inv(g, s)
    ensures |InUse(s)| == |Pinned(s)| + |Visited(s)|
  {
    hide Inv, Pinned;
    var pins := Members(Pinned(s));
    PinnedDistinct(g, s);
    MembersSize(Pinned(s));
    forall c | c in s.cache || c in Pinned(s)
      ensures c in s.cache && (s.cache[c].refcnt > 0 <==> c in pins || c in Visited(s))
    {
      UsedWhy(g, s, c);
    }
    assert InUse(s) == pins + Visited(s);
  }

  lemma PinnedDistinct(g: Geometry, s: State)
    requires Inv(g, s)
    ensures Distinct(Pinned(s))
  {
    hide InvDisk, InvOps, InvCache;
  }

  lemma UsedWhy(g: Geometry, s: State, c: nat)
    requires Inv(g, s) && (c in s.cache || c in Pinned(s))
    ensures c in s.cache
    ensures s.cache[c].refcnt > 0 <==> c in Pinned(s) || s.cache[c].holder.Some? || s.cache[c].waiters > 0
  {
    hide InvOps, Pinned, Current;
    assert BufOk(g, s, c);
  }

  /** A commit, and any reader, finds a buffer exactly while fewer than NBUF are in use. */
  lemma CommitHasBuffer(g: Geometry, s: State, b: nat)
    requires Reachable(g, s)
    ensures (exists v :: BgetFinds(s, b, v)) <==> b in s.cache || |InUse(s)| < NBUF
    ensures |InUse(s)| == |Pinned(s)| + |Visited(s)|
    ensures s.phase.Running? || s.phase.WritingLog? ==> Pinned(s) == s.lh
  {
    ReachableInv(g, s);
    HasBuffer(g, s, b);
  }

  /** A commit that has no buffer for the first log block. */
  ghost predicate Starved(g: Geometry, s: State) {
    && Reachable(g, s) && s.phase.WritingLog? && s.phase.tail == 0 < |s.lh| < NBUF
    && forall v :: !BgetFinds(s, g.Slot(0), v)
  }

  /** That needs no more than the log that mkfs makes and one reader, who needs no operation:
      three operations log 29 blocks, the reader holds another one, and the commit panics. */
  lemma ReaderStarvesCommit(g: Geometry)
    requires g.Valid() && g.size >= LOGSIZE && g.blocks - g.size >= LOGSIZE
    ensures exists s :: Starved(g, s)
  {
    var d := BlankDisk(g);
    BootEmpty(g, d);
    Begin3(g, d);
    Fill(g, d, 29);
    StarveFull(g, d);
  }

  lemma StarveFull(g: Geometry, d: Disk)
    requires g.Valid() && |d| == g.blocks && g.size >= 2 && g.blocks - g.size >= LOGSIZE && Reachable(g, Full(g, d, 29))
    ensures exists s :: Starved(g, s)
  {
    hide Reachable, FullCache, FullHeader, FullOps, FullLogged;
    FullReady(g, d, 29);
    FullCacheShape(g, d, 29);
    var t := ReadOne(g, Full(g, d, 29), 3, Home(g, 29), Some(g.start));
    assert t.cache.Keys == FullCache(g, d, 29).Keys - {g.start} + {Home(g, 29)};
    var s := EndThree(g, t);
    assert Starved(g, s);
  }

  lemma EndThree(g: Geometry, t: State) returns (s: State)
    requires Reachable(g, t) && t.phase.Running? && t.ops.Keys == {0, 1, 2} && t.outstanding == 3 && t.lh != []
    requires forall c :: c in t.cache ==> !t.cache[c].dirty
    ensures Reachable(g, s) && s.phase == WritingLog(2, 0) && s.cache == t.cache && s.lh == t.lh
  {
    hide Reachable;
    var s1 := EndOne(g, t, 0);
    var s2 := EndOne(g, s1, 1);
    s := EndOne(g, s2, 2);
  }

  lemma EndOne(g: Geometry, s: State, p: Pid) returns (t: State)
    requires Reachable(g, s) && s.phase.Running? && p in s.ops && s.outstanding > 0 && s.lh != []
    requires forall c :: c in s.cache ==> !s.cache[c].dirty
    ensures Reachable(g, t) && t.cache == s.cache && t.lh == s.lh && t.outstanding == s.outstanding - 1 &&
            t.ops.Keys == s.ops.Keys - {p}
    ensures t.phase == if t.outstanding > 0 then Running else WritingLog(p, 0)
  {
    ReachStep(g, s, EndOp(p));
    t := Apply(g, s, EndOp(p));
  }

  function Members(s: seq<nat>): set<nat> {
    set c | c in s
  }

  lemma {:induction false} MembersSize(s: seq<nat>)
    requires Distinct(s)
    ensures |Members(s)| == |s|
  {
    if s != [] {
      var n := |s| - 1;
      MembersSize(s[..n]);
      assert Members(s) == Members(s[..n]) + {s[n]};
      assert s[n] !in Members(s[..n]);
    }
  }
}
