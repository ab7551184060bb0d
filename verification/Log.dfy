/** The code of kernel/log.c, with its loops over the header and the log blocks, as run by one
    process. Every change of the state is one step of LogMachine, so what LogRuns proves of
    all runs holds between any two block writes made here. Other processes go on reading:
    wherever the kernel can be interrupted they take steps of their own. */
module LogCode {
  import opened Base
  import opened Blocks
  import opened LogFormat
  import opened LogMachine
  import opened LogLimits

  datatype Outcome = Done | Sleeps | Panics

  /** Process `p` holds exactly the buffers of the blocks in `held`. */
  ghost predicate Mine(s: State, p: Pid, held: set<nat>) {
    && (forall c :: c in held ==> c in s.cache)
    && (forall c :: c in s.cache ==> (s.cache[c].holder == Some(p) <==> c in held))
  }

  /** The buffers that are pinned, or that processes other than `p` hold or wait for. `p` itself
      waits for the blocks in `w`. */
  function Load(s: State, p: Pid, w: set<nat>): set<nat> {
    set c | c in s.cache && (c in Pinned(s) || (s.cache[c].holder.Some? && s.cache[c].holder.value != p)
                             || s.cache[c].waiters > if c in w then 1 else 0)
  }

  ghost predicate Waiting(s: State, w: set<nat>) {
    forall c :: c in w ==> c in s.cache && s.cache[c].waiters > 0
  }

  /** All NBUF buffers are in use: bget of an uncached block panics. */
  ghost predicate Crowded(s: State) {
    |s.cache| == NBUF && forall c :: c in s.cache ==> s.cache[c].refcnt > 0
  }

  // ------------------------------------------------------------ other processes

  /** One call inside bread or brelse, of a buffer with a change only if it is not logged. */
  predicate Quiet(s: State, step: Step) {
    step.Bget? || step.Lock? || step.Brelse? || (step.Abandon? && step.b !in s.lh)
  }

  /** A step of a process other than `p` that needs no operation: one call inside bread or brelse.
      It leaves `p` its place in the queue, and the load within `cap`. */
  predicate OthersMay(g: Geometry, s: State, p: Pid, w: set<nat>, cap: nat, step: Step) {
    && Quiet(s, step) && step.p != p && Enabled(g, s, step)
    && (step.Lock? && step.b in w ==> s.cache[step.b].waiters > 1)
    && |Load(Apply(g, s, step), p, w)| <= cap
  }

  /** What such steps leave alone. */
  ghost predicate Undisturbed(g: Geometry, s: State, t: State, p: Pid, held: set<nat>, w: set<nat>) {
    && Inv(g, t) && t == s.(cache := t.cache) && Mine(t, p, held) && Waiting(t, w)
  }

  lemma OthersStep(g: Geometry, s: State, p: Pid, held: set<nat>, w: set<nat>, cap: nat, step: Step)
    requires Inv(g, s) && Mine(s, p, held) && Waiting(s, w) && OthersMay(g, s, p, w, cap, step)
    ensures Undisturbed(g, s, Apply(g, s, step), p, held, w)
    ensures Abs(g, Apply(g, s, step)) == Abs(g, s)
  {
    hide Inv, Load, Abs, Pinned, BgetFinds, DoBget, DoLock, DoBrelse;
    QuietStep(g, s, step);
    InUseKept(g, s);
    match step
    case Bget(q, b, v) => BgetMine(s, p, held, w, b, v);
    case Lock(q, b) => LockMine(s, p, held, w, q, b);
    case Brelse(q, b) => BrelseMine(s, p, held, w, b);
    case Abandon(q, b) => BrelseMine(s, p, held, w, b);
  }

  lemma QuietStep(g: Geometry, s: State, step: Step)
    requires Inv(g, s) && Enabled(g, s, step) && Quiet(s, step)
    ensures var t := Apply(g, s, step);
            Inv(g, t) && t == s.(cache := t.cache) && Abs(g, t) == Abs(g, s)
  {
    hide Inv, Abs;
    StepRefines(g, s, step);
  }

  /** Who holds or waits for a buffer keeps it from being recycled. */
  ghost predicate Referenced(s: State) {
    forall c :: c in s.cache && (s.cache[c].holder.Some? || s.cache[c].waiters > 0) ==> s.cache[c].refcnt > 0
  }

  lemma BgetMine(s: State, p: Pid, held: set<nat>, w: set<nat>, b: nat, v: Option<nat>)
    requires Mine(s, p, held) && Waiting(s, w) && BgetFinds(s, b, v) && Referenced(s)
    ensures var t := DoBget(s, b, v);
            t == s.(cache := t.cache) && Mine(t, p, held) && Waiting(t, w + {b})
  {
  }

  lemma LockMine(s: State, p: Pid, held: set<nat>, w: set<nat>, q: Pid, b: nat)
    requires Mine(s, p, held) && Waiting(s, w) && b < |s.disk| && b in s.cache && s.cache[b].holder.None? &&
             s.cache[b].waiters > 0
    requires b in w ==> q == p || s.cache[b].waiters > 1
    ensures var t := DoLock(s, q, b);
            t == s.(cache := t.cache) && Mine(t, p, if q == p then held + {b} else held) &&
              Waiting(t, if q == p then w - {b} else w)
  {
  }

  lemma BrelseMine(s: State, p: Pid, held: set<nat>, w: set<nat>, b: nat)
    requires Mine(s, p, held) && Waiting(s, w) && b in s.cache && s.cache[b].refcnt > 0
    ensures var t := DoBrelse(s, b);
            t == s.(cache := t.cache) && Mine(t, p, held - {b}) && Waiting(t, w)
    ensures b !in held ==> held - {b} == held
  {
  }

  /** Buffers that are held, waited for or pinned have references. */
  lemma InUseKept(g: Geometry, s: State)
    requires Inv(g, s)
    ensures Referenced(s) && forall c :: c in Pinned(s) ==> c in s.cache && s.cache[c].refcnt > 0
    ensures |s.disk| == g.blocks
  {
    hide Inv, Pinned;
    forall c | c in s.cache || c in Pinned(s) ensures c in s.cache && (s.cache[c].refcnt > 0 <==>
      c in Pinned(s) || s.cache[c].holder.Some? || s.cache[c].waiters > 0)
    {
      UsedWhy(g, s, c);
    }
    DiskSize(g, s);
  }

  lemma CacheSize(g: Geometry, s: State)
    requires Inv(g, s)
    ensures |s.cache| <= NBUF
  {
  }

  /** The blocks that a commit or a recovery reads and writes. */
  predicate Own(g: Geometry, s: State, b: nat) {
    !g.IsHome(b) || b in s.lh
  }

  /** A buffer held in a commit or a recovery shows the current content of its block. */
  lemma HeldIs(g: Geometry, s: State, p: Pid, b: nat)
    requires Inv(g, s) && !s.phase.Running? && b in s.cache && s.cache[b].holder == Some(p) && Own(g, s, b)
    ensures Holds(s, p, b) && b < g.blocks == |s.disk| && s.cache[b].data == Current(s, b) && !s.cache[b].dirty
  {
    hide Pinned, Current;
    assert BufOk(g, s, b);
  }

  lemma DiskSize(g: Geometry, s: State)
    requires Inv(g, s)
    ensures DiskOk(g, s.disk) && |s.disk| == g.blocks
  {
  }

  /** Unpinning, releasing and writing buffers adds nothing to the load. */
  lemma LoadFalls(s: State, t: State, p: Pid, w: set<nat>)
    requires t.cache.Keys == s.cache.Keys && forall c :: c in Pinned(t) ==> c in Pinned(s)
    requires forall c :: c in s.cache ==> t.cache[c].waiters == s.cache[c].waiters
    requires forall c :: c in s.cache ==> t.cache[c].holder == s.cache[c].holder || t.cache[c].holder.None?
    ensures |Load(t, p, w)| <= |Load(s, p, w)|
  {
    hide Pinned;
    SubsetSize(Load(t, p, w), Load(s, p, w));
  }

  /** The bget of `p` itself adds nothing either. */
  lemma BgetLoad(g: Geometry, s: State, p: Pid, b: nat, v: Option<nat>)
    requires Inv(g, s) && BgetFinds(s, b, v) && (forall c :: c in s.cache ==> s.cache[c].holder != Some(p) || c != b)
    ensures |Load(DoBget(s, b, v), p, {b})| <= |Load(s, p, {})|
  {
    hide Inv, Pinned;
    InUseKept(g, s);
    assert Pinned(DoBget(s, b, v)) == Pinned(s) by { PinnedSame(s, DoBget(s, b, v)); }
    SubsetSize(Load(DoBget(s, b, v), p, {b}), Load(s, p, {}));
  }

  lemma PinnedSame(s: State, t: State)
    requires t.lh == s.lh && t.phase == s.phase
    ensures Pinned(t) == Pinned(s)
  {
  }

  lemma LockLoad(s: State, p: Pid, b: nat)
    requires b < |s.disk| && b in s.cache && s.cache[b].waiters > 0 && s.cache[b].holder.None?
    ensures |Load(DoLock(s, p, b), p, {})| <= |Load(s, p, {b})|
  {
    hide Pinned;
    PinnedSame(s, DoLock(s, p, b));
    SubsetSize(Load(DoLock(s, p, b), p, {}), Load(s, p, {b}));
  }

  /** What is in use is the load and what `p` holds. */
  lemma CrowdedLoad(g: Geometry, s: State, p: Pid, held: set<nat>)
    requires Inv(g, s) && Mine(s, p, held) && Crowded(s)
    ensures NBUF <= |Load(s, p, {})| + |held|
  {
    hide Inv, Pinned;
    forall c | c in s.cache ensures c in Load(s, p, {}) + held { UsedWhy(g, s, c); }
    SubsetSize(s.cache.Keys, Load(s, p, {}) + held);
    assert |Load(s, p, {}) + held| + |Load(s, p, {}) * held| == |Load(s, p, {})| + |held|;
  }

  // ------------------------------------------------------------ steps of bread

  /** bget by `p`. */
  lemma BgetStep(g: Geometry, s: State, p: Pid, b: nat, v: Option<nat>, held: set<nat>)
    requires Inv(g, s) && BgetFinds(s, b, v) && b < g.blocks && Mine(s, p, held) && b !in held
    ensures var t := DoBget(s, b, v);
            Undisturbed(g, s, t, p, held, {b}) && Abs(g, t) == Abs(g, s) && |Load(t, p, {b})| <= |Load(s, p, {})|
  {
    hide Inv, Load, Abs, Pinned, BgetFinds, DoBget;
    QuietStep(g, s, Bget(p, b, v));
    InUseKept(g, s);
    BgetMine(s, p, held, {}, b, v);
    BgetLoad(g, s, p, b, v);
    assert {} + {b} == {b};
  }

  /** The process that holds the buffer releases it while `p` sleeps. */
  lemma HandOver(g: Geometry, s: State, p: Pid, b: nat, held: set<nat>)
    requires Inv(g, s) && b in s.cache && s.cache[b].holder.Some? && !s.cache[b].dirty && Mine(s, p, held) && b !in held
    requires Waiting(s, {b})
    ensures s.cache[b].refcnt > 0
    ensures var t := DoBrelse(s, b);
            Undisturbed(g, s, t, p, held, {b}) && Abs(g, t) == Abs(g, s) && |Load(t, p, {b})| <= |Load(s, p, {b})|
  {
    hide Inv, Load, Abs, Pinned;
    InUseKept(g, s);
    HeldValid(g, s, b);
    QuietStep(g, s, Brelse(s.cache[b].holder.value, b));
    BrelseMine(s, p, held, {b}, b);
    PinnedSame(s, DoBrelse(s, b));
    LoadFalls(s, DoBrelse(s, b), p, {b});
  }

  lemma HeldValid(g: Geometry, s: State, b: nat)
    requires Inv(g, s) && b in s.cache && s.cache[b].holder.Some?
    ensures s.cache[b].valid && b < g.blocks
    ensures !s.cache[b].dirty ==> |s.disk| == g.blocks && s.cache[b].data == Current(s, b)
  {
    hide Pinned, Current;
    assert BufOk(g, s, b);
  }

  /** acquiresleep and the disk read. */
  lemma LockStep(g: Geometry, s: State, p: Pid, b: nat, held: set<nat>)
    requires Inv(g, s) && b < g.blocks && Mine(s, p, held) && b !in held
    requires Waiting(s, {b}) && s.cache[b].holder.None?
    ensures |s.disk| == g.blocks
    ensures var t := DoLock(s, p, b);
            Undisturbed(g, s, t, p, held + {b}, {}) && Abs(g, t) == Abs(g, s) && |Load(t, p, {})| <= |Load(s, p, {b})|
  {
    hide Inv, Load, Abs, Pinned;
    InUseKept(g, s);
    QuietStep(g, s, Lock(p, b));
    LockMine(s, p, held, {b}, p, b);
    LockLoad(s, p, b);
    assert {b} - {b} == {};
  }

  lemma ReleaseStep(g: Geometry, s: State, p: Pid, b: nat, held: set<nat>)
    requires Inv(g, s) && Mine(s, p, held) && b in held && !s.cache[b].dirty
    ensures s.cache[b].refcnt > 0
    ensures var t := DoBrelse(s, b);
            Undisturbed(g, s, t, p, held - {b}, {}) && Abs(g, t) == Abs(g, s) && |Load(t, p, {})| <= |Load(s, p, {})|
  {
    hide Inv, Load, Abs, Pinned;
    InUseKept(g, s);
    HeldValid(g, s, b);
    QuietStep(g, s, Brelse(p, b));
    BrelseMine(s, p, held, {}, b);
    PinnedSame(s, DoBrelse(s, b));
    LoadFalls(s, DoBrelse(s, b), p, {});
  }

  /** The loop of write_head over the header buffer. */
  method FillHeader(h: Block, lh: seq<nat>) returns (r: Block)
    requires |lh| <= LOGSIZE && forall i :: 0 <= i < |lh| ==> lh[i] < TWO32
    ensures r == EncodeHeader(h, lh) && Header(r) == lh
  {
    var h0 := SetWord(h, 0, |lh|);
    r := h0;
    for i := 0 to |lh|
      invariant r == WriteEntries(h0, lh, i)
    {
      r := SetWord(r, i + 1, lh[i]);
    }
    HeaderRoundTrip(h, lh);
  }

  /** The loop of read_head over the header buffer. */
  method ParseHeader(h: Block) returns (lh: seq<nat>)
    requires 0 <= Signed(Word(h, 0)) <= LOGSIZE
    ensures lh == Header(h)
  {
    lh := [];
    var n := Signed(Word(h, 0));
    for i := 0 to n
      invariant |lh| == i && lh == Header(h)[..i]
    {
      lh := lh + [Word(h, i + 1)];
    }
  }

  class Log {
    const g: Geometry
    const cap: nat  // the pinned buffers and those that other processes use are never more
    var st: State
    var plan: seq<seq<Step>>  // what the other processes do, from one interruption to the next

    ghost predicate Valid()
      reads this
    {
      Inv(g, st)
    }

    /** Process `p` holds the buffers in `held` and waits for none. */
    ghost predicate At(p: Pid, held: set<nat>)
      reads this
    {
      Inv(g, st) && Mine(st, p, held) && |Load(st, p, {})| <= cap
    }

    /** Power-on: nothing but the disk is kept. */
    constructor (g: Geometry, disk: Disk, cap: nat, plan: seq<seq<Step>>)
      requires DiskOk(g, disk)
      ensures Valid() && this.g == g && this.cap == cap && st == PowerOn(disk) && forall p :: At(p, {})
    {
      this.g, this.cap, st, this.plan := g, cap, PowerOn(disk), plan;
      new;
      PowerOnInv(g, disk);
      forall p ensures Load(st, p, {}) == {} { }
    }

    /** The other processes run until `p` goes on. */
    method Others(p: Pid, ghost held: set<nat>, w: set<nat>)
      requires Valid() && Mine(st, p, held) && Waiting(st, w) && |Load(st, p, w)| <= cap
      modifies this
      ensures Undisturbed(g, old(st), st, p, held, w) && |Load(st, p, w)| <= cap && Abs(g, st) == Abs(g, old(st))
    {
      hide Abs, DiskOk, Enabled, Apply, Load, InvLog, InvOps, InvCache;
      if plan == [] {
        return;
      }
      var steps := plan[0];
      plan := plan[1..];
      for i := 0 to |steps|
        invariant Undisturbed(g, old(st), st, p, held, w) && |Load(st, p, w)| <= cap && Abs(g, st) == Abs(g, old(st))
      {
        if OthersMay(g, st, p, w, cap, steps[i]) {
          OthersStep(g, st, p, held, w, cap, steps[i]);
          st := Apply(g, st, steps[i]);
        }
      }
    }

    /** bread: a buffer for `b`, locked by `p` and read from the disk if necessary. It panics if
        and only if bget finds all buffers in use, and sleeps on only while the holder has a
        change to log. */
    method Bread(p: Pid, b: nat, ghost held: set<nat>) returns (r: Outcome, data: Block)
      requires At(p, held) && b < g.blocks && b !in held
      modifies this
      ensures Valid() && Abs(g, st) == Abs(g, old(st)) && st == old(st).(cache := st.cache)
      ensures r == Done ==> At(p, held + {b}) && |st.disk| == g.blocks && b in st.cache && st.cache[b].data == data
                            && (!st.cache[b].dirty ==> data == Current(st, b))
      ensures r == Panics ==> Mine(st, p, held) && b !in st.cache && Crowded(st) && NBUF <= cap + |held|
      ensures r == Sleeps ==> b in st.cache && st.cache[b].dirty
    {
      hide Inv, Abs, DiskOk, BufOk, Enabled, Apply, Load, Pinned;
      data := ZeroBlock();
      Others(p, held, {});
      var u: Option<nat> := None;
      if b !in st.cache && |st.cache| >= NBUF {
        if c :| c in st.cache && st.cache[c].refcnt == 0 {
          u := Some(c);
        } else {
          CacheSize(g, st);
          CrowdedLoad(g, st, p, held);
          return Panics, data;
        }
      }
      BgetStep(g, st, p, b, u, held);
      st := DoBget(st, b, u);
      Others(p, held, {b});
      if st.cache[b].holder.Some? {
        if st.cache[b].dirty {
          return Sleeps, data;
        }
        HandOver(g, st, p, b, held);
        st := DoBrelse(st, b);
      }
      LockStep(g, st, p, b, held);
      st := DoLock(st, p, b);
      data := st.cache[b].data;
      HeldValid(g, st, b);
      r := Done;
    }

    /** brelse of an unchanged buffer. */
    method Brelse(p: Pid, b: nat, ghost held: set<nat>)
      requires At(p, held) && b in held && !st.cache[b].dirty
      modifies this
      ensures At(p, held - {b}) && Abs(g, st) == Abs(g, old(st))
      ensures b in old(st).cache && old(st).cache[b].refcnt > 0 && st == DoBrelse(old(st), b)
    {
      hide Inv, Abs, DiskOk, BufOk, Load, Pinned;
      ReleaseStep(g, st, p, b, held);
      st := DoBrelse(st, b);
    }

    /** write_log: copy every block of the transaction from the cache to its log slot. */
    method WriteLog(p: Pid) returns (r: Outcome)
      requires At(p, {}) && st.phase == WritingLog(p, 0)
      modifies this
      ensures Valid() && st.lh == old(st).lh && st.logged == old(st).logged && Abs(g, st) == Abs(g, old(st))
      ensures r == Done ==> At(p, {}) && st.phase == WritingLog(p, |st.lh|)
      ensures r == Done ==> forall i :: 0 <= i < |st.lh| ==> st.disk[g.Slot(i)] == st.logged[st.lh[i]]
      ensures r != Done ==> r == Panics && Crowded(st) && NBUF <= cap && st.phase.WritingLog?
    {
      hide DiskOk, BufOk, Load;
      var tail := 0;
      while tail < |st.lh|
        invariant At(p, {}) && tail <= |st.lh| && st.phase == WritingLog(p, tail)
        invariant st.lh == old(st).lh && st.logged == old(st).logged && Abs(g, st) == Abs(g, old(st))
      {
        r := CopyRound(p, tail);
        if r != Done {
          return;
        }
        tail := tail + 1;
      }
      r := Done;
    }

    /** The body of write_log's loop. */
    method CopyRound(p: Pid, tail: nat) returns (r: Outcome)
      requires At(p, {}) && st.phase == WritingLog(p, tail) && tail < |st.lh|
      modifies this
      ensures Valid() && st.lh == old(st).lh && st.logged == old(st).logged && Abs(g, st) == Abs(g, old(st))
      ensures r == Done ==> At(p, {}) && st.phase == WritingLog(p, tail + 1)
      ensures r != Done ==> r == Panics && Crowded(st) && NBUF <= cap && st.phase == WritingLog(p, tail)
    {
      hide Inv, Abs, DiskOk, Enabled, Apply, BufOk, Load, Pinned, Crowded;
      var to, home := g.Slot(tail), st.lh[tail];
      CopyFacts(g, st, p, tail);
      var out, _ := Bread(p, to, {});
      CleanInCommit(g, st);
      if out != Done {
        return out;
      }
      assert {} + {to} == {to};
      var data;
      r, data := Bread(p, home, {to});
      CleanInCommit(g, st);
      CopyFacts(g, st, p, tail);
      assert {to} + {home} == {to, home};
      CopyAndRelease(p, tail, data);
    }

    /** memmove, bwrite and the two brelse calls of the same loop. */
    method CopyAndRelease(p: Pid, tail: nat, data: Block)
      requires st.phase == WritingLog(p, tail) && tail < |st.lh| && g.Slot(tail) != st.lh[tail] &&
               st.lh[tail] < |st.disk|
      requires At(p, {g.Slot(tail), st.lh[tail]}) && data == Current(st, st.lh[tail])
      modifies this
      ensures At(p, {}) && st.phase == WritingLog(p, tail + 1)
      ensures st.lh == old(st).lh && st.logged == old(st).logged && Abs(g, st) == Abs(g, old(st))
    {
      hide Inv, Abs, DiskOk, Enabled, Apply, BufOk, Load, Pinned;
      var to, home := g.Slot(tail), st.lh[tail];
      Others(p, {to, home}, {});
      CopyStep(g, st, p, tail);
      ghost var s0 := st;
      st := Bwrite(st, to, data).(phase := WritingLog(p, tail + 1));
      CopyPins(s0, st);
      LoadFalls(s0, st, p, {});
      CleanInCommit(g, st);
      ReleaseBoth(p, home, to);
    }

    /** The two brelse calls that end a round of write_log or install_trans. */
    method ReleaseBoth(p: Pid, a: nat, b: nat)
      requires At(p, {b, a}) && !st.phase.Running? && a != b && Own(g, st, a) && Own(g, st, b)
      modifies this
      ensures At(p, {}) && Abs(g, st) == Abs(g, old(st)) && st == old(st).(cache := st.cache)
    {
      hide Inv, Abs, DiskOk, Enabled, Apply, BufOk, Load, Pinned;
      Others(p, {b, a}, {});
      CleanInCommit(g, st);
      Brelse(p, a, {b, a});
      assert {b, a} - {a} == {b} && {b} - {b} == {};
      Others(p, {b}, {});
      CleanInCommit(g, st);
      Brelse(p, b, {b});
    }

    /** The write_head that commits. */
    method WriteHead(p: Pid) returns (r: Outcome)
      requires At(p, {}) && st.phase == WritingLog(p, |st.lh|)
      modifies this
      ensures Valid() && st.lh == old(st).lh && st.logged == old(st).logged && Abs(g, st).view == Abs(g, old(st)).view
      ensures r == Done ==> At(p, {}) && st.phase == Installing(p, 0) && Abs(g, st).durable == Abs(g, st).view
      ensures r != Done ==> r == Panics && Crowded(st) && NBUF <= cap && Abs(g, st) == Abs(g, old(st))
    {
      hide Inv, Abs, DiskOk, Enabled, Apply, BufOk, Load, Crowded, Pinned;
      var h;
      r, h := BreadHeader(p);
      if r == Done {
        var data := FillHeader(h, st.lh);
        WriteHeadBlock(p, data);
      }
    }

    method WriteHeadBlock(p: Pid, data: Block)
      requires At(p, {g.start}) && st.phase == WritingLog(p, |st.lh|) && |st.disk| == g.blocks && g.start < g.blocks
      requires |st.lh| <= LOGSIZE && forall i :: 0 <= i < |st.lh| ==> st.lh[i] < TWO32
      requires data == EncodeHeader(Current(st, g.start), st.lh)
      modifies this
      ensures At(p, {}) && st.phase == Installing(p, 0) && st.lh == old(st).lh && st.logged == old(st).logged
      ensures Abs(g, st).durable == Abs(g, old(st)).view == Abs(g, st).view
    {
      hide Inv, Abs, DiskOk, Enabled, Apply, BufOk, EncodeHeader, Pinned, Load;
      Others(p, {g.start}, {});
      HeadStep(g, st, p);
      ghost var s0 := st;
      st := Bwrite(st, g.start, data).(phase := Installing(p, 0));
      HeadPins(s0, st);
      LoadFalls(s0, st, p, {});
      ReleaseHeader(p);
    }

    /** The brelse that ends write_head and read_head. */
    method ReleaseHeader(p: Pid)
      requires At(p, {g.start}) && !st.phase.Running?
      modifies this
      ensures At(p, {}) && Abs(g, st) == Abs(g, old(st)) && st == old(st).(cache := st.cache)
    {
      hide Inv, Abs, DiskOk, Enabled, Apply, BufOk, Load, Pinned;
      Others(p, {g.start}, {});
      CleanInCommit(g, st);
      Brelse(p, g.start, {g.start});
      assert {g.start} - {g.start} == {};
    }

    /** bread of the log header. */
    method BreadHeader(p: Pid) returns (r: Outcome, h: Block)
      requires At(p, {}) && !st.phase.Running?
      modifies this
      ensures Valid() && Abs(g, st) == Abs(g, old(st)) && st == old(st).(cache := st.cache)
      ensures |st.disk| == g.blocks && g.start < g.blocks && |st.lh| <= LOGSIZE &&
              forall i :: 0 <= i < |st.lh| ==> st.lh[i] < TWO32
      ensures r == Done ==> At(p, {g.start}) && h == Current(st, g.start)
      ensures r != Done ==> r == Panics && Crowded(st) && NBUF <= cap
    {
      hide Inv, Abs, DiskOk, Enabled, Apply, BufOk, Pinned, Load, Crowded;
      HeadFacts(g, st);
      r, h := Bread(p, g.start, {});
      CleanInCommit(g, st);
      assert {} + {g.start} == {g.start};
    }

    /** The write_head with n == 0 that erases the transaction, for commit and for recovery. */
    method ClearHead(p: Pid) returns (r: Outcome)
      requires At(p, {}) && (st.phase == Installing(p, |st.lh|) || st.phase == Recovering(p, |st.lh|))
      modifies this
      ensures Valid() && Abs(g, st) == Abs(g, old(st))
      ensures r == Done ==>
                At(p, {}) && st.lh == [] && st.phase == if old(st).phase.Installing? then Cleared(p) else Running
      ensures r != Done ==> r == Panics && Crowded(st) && NBUF <= cap
    {
      hide Inv, Abs, DiskOk, Enabled, Apply, BufOk, Load, Crowded, Pinned;
      var h;
      r, h := BreadHeader(p);
      if r == Done {
        var data := FillHeader(h, []);
        ClearHeadBlock(p, data);
      }
    }

    method ClearHeadBlock(p: Pid, data: Block)
      requires At(p, {g.start}) && (st.phase == Installing(p, |st.lh|) || st.phase == Recovering(p, |st.lh|))
      requires |st.disk| == g.blocks && g.start < g.blocks && data == EncodeHeader(Current(st, g.start), [])
      modifies this
      ensures At(p, {}) && st.lh == [] && Abs(g, st) == Abs(g, old(st))
      ensures st.phase == if old(st).phase.Installing? then Cleared(p) else Running
    {
      hide Inv, Abs, DiskOk, Enabled, Apply, BufOk, EncodeHeader, Pinned, Load;
      Others(p, {g.start}, {});
      ClearStep(g, st, p);
      CleanInCommit(g, st);
      ghost var s0 := st;
      st := Bwrite(st, g.start, data).(
        lh := [], logged := map[], phase := if st.phase.Installing? then Cleared(p) else Running);
      ClearPins(s0, st);
      LoadFalls(s0, st, p, {});
      Brelse(p, g.start, {g.start});
      assert {g.start} - {g.start} == {};
    }

    /** install_trans: copy every logged block to its home; a commit also unpins it. */
    method InstallTrans(p: Pid) returns (r: Outcome)
      requires At(p, {}) && (st.phase == Installing(p, 0) || st.phase == Recovering(p, 0))
      modifies this
      ensures Valid() && Abs(g, st) == Abs(g, old(st)) && st.lh == old(st).lh
      ensures r == Done ==>
                At(p, {}) && st.phase == if old(st).phase.Installing? then Installing(p, |st.lh|)
                else Recovering(p, |st.lh|)
      ensures r != Done ==> r == Panics && Crowded(st) && NBUF <= if old(st).phase.Installing? then cap else cap + 1
    {
      hide DiskOk, BufOk, Load;
      var tail := 0;
      while tail < |st.lh|
        invariant At(p, {}) && tail <= |st.lh|
        invariant st.phase == if old(st).phase.Installing? then Installing(p, tail) else Recovering(p, tail)
        invariant st.lh == old(st).lh && Abs(g, st) == Abs(g, old(st))
      {
        r := InstallRound(p, tail);
        if r != Done {
          return;
        }
        tail := tail + 1;
      }
      r := Done;
    }

    /** The body of install_trans's loop. */
    method InstallRound(p: Pid, tail: nat) returns (r: Outcome)
      requires At(p, {}) && (st.phase == Installing(p, tail) || st.phase == Recovering(p, tail)) && tail < |st.lh|
      modifies this
      ensures Valid() && st.lh == old(st).lh && Abs(g, st) == Abs(g, old(st))
      ensures r == Done ==>
                At(p, {}) && st.phase == if old(st).phase.Installing? then Installing(p, tail + 1)
                else Recovering(p, tail + 1)
      ensures r != Done ==> r == Panics && Crowded(st) && NBUF <= if old(st).phase.Installing? then cap else cap + 1
    {
      hide Inv, Abs, DiskOk, Enabled, Apply, BufOk, Pinned, BgetFinds, Load, Crowded;
      var from, home := g.Slot(tail), st.lh[tail];
      InstallFacts(g, st, tail);
      var data;
      r, data := Bread(p, from, {});
      CleanInCommit(g, st);
      if r != Done {
        return;
      }
      assert {} + {from} == {from};
      var out, _ := Bread(p, home, {from});
      CleanInCommit(g, st);
      InstallFacts(g, st, tail);
      if out != Done {
        return out;
      }
      assert {from} + {home} == {from, home};
      InstallAndRelease(p, tail, data);
    }

    /** memmove, bwrite, bunpin and the two brelse calls of the same loop. */
    method InstallAndRelease(p: Pid, tail: nat, data: Block)
      requires tail < |st.lh| && (st.phase == Installing(p, tail) || st.phase == Recovering(p, tail))
      requires At(p, {g.Slot(tail), st.lh[tail]}) && g.Slot(tail) != st.lh[tail] && g.Slot(tail) < |st.disk| &&
               data == Current(st, g.Slot(tail))
      modifies this
      ensures At(p, {}) && st.lh == old(st).lh && Abs(g, st) == Abs(g, old(st))
      ensures st.phase == if old(st).phase.Installing? then Installing(p, tail + 1) else Recovering(p, tail + 1)
    {
      hide Inv, Abs, DiskOk, Enabled, Apply, BufOk, Load, Pinned;
      var from, home := g.Slot(tail), st.lh[tail];
      Others(p, {from, home}, {});
      InstallStep(g, st, p, tail);
      ghost var s0 := st;
      InstallMine(g, s0, p, tail, data);
      st := Bwrite(st, home, data);
      if st.phase.Installing? {
        st := Bunpin(st, home).(phase := Installing(p, tail + 1));
      } else {
        st := st.(phase := Recovering(p, tail + 1));
      }
      CleanInCommit(g, st);
      assert {home, from} == {from, home};
      ReleaseBoth(p, from, home);
    }

    /** commit: after it the whole view is durable, the home blocks hold it and the log is empty.
        It cannot panic while the load stays below NBUF; a panic leaves all of the transaction
        durable or none of it. */
    method Commit(p: Pid) returns (r: Outcome)
      requires At(p, {}) && st.phase == if |st.lh| > 0 then WritingLog(p, 0) else Cleared(p)
      modifies this
      ensures Valid() && Abs(g, st).view == Abs(g, old(st)).view
      ensures r == Done ==> At(p, {}) && st.phase == Cleared(p) && st.lh == []
      ensures r == Done ==> Abs(g, st).durable == Abs(g, st).view == Homes(g, st.disk)
      ensures r != Done ==> r == Panics && Crowded(st) && NBUF <= cap
                            && (Abs(g, st).durable == Abs(g, old(st)).durable || Abs(g, st).durable == Abs(g, st).view)
    {
      hide Inv, DiskOk, Enabled, Apply, BufOk, Load, Crowded, Pinned;
      r := Done;
      if |st.lh| > 0 {
        r := WriteLog(p);
        if r != Done {
          return;
        }
        r := WriteHead(p);
        if r != Done {
          return;
        }
        r := InstallTrans(p);
        if r != Done {
          return;
        }
        r := ClearHead(p);
        if r != Done {
          return;
        }
      }
      ClearedMeaning(g, st);
    }

    /** recover_from_log: bring the home blocks to the durable content and empty the log. */
    method RecoverFromLog(p: Pid) returns (r: Outcome)
      requires At(p, {}) && st.phase.Boot?
      modifies this
      ensures Valid() && |old(st).disk| == |st.disk| == g.blocks && DiskOk(g, old(st).disk)
      ensures Durable(g, st.disk) == Durable(g, old(st).disk)
      ensures r == Done ==>
                At(p, {}) && st.phase == Running && st.lh == [] && Homes(g, st.disk) == Durable(g, old(st).disk)
      ensures r != Done ==> r == Panics && Crowded(st) && NBUF <= cap + 1
    {
      hide BufOk, Load, Crowded, Pinned;
      r := ReadHead(p);
      if r == Done {
        r := InstallTrans(p);
      }
      if r == Done {
        r := ClearHead(p);
      }
      if r == Done {
        RunningMeaning(g, st);
      }
    }

    method ReadHead(p: Pid) returns (r: Outcome)
      requires At(p, {}) && st.phase.Boot?
      modifies this
      ensures Valid() && Abs(g, st) == Abs(g, old(st)) && st.disk == old(st).disk
      ensures r == Done ==>
                At(p, {}) && st.phase == Recovering(p, 0) && DiskOk(g, st.disk) && st.lh == Header(st.disk[g.start])
      ensures r != Done ==> r == Panics && Crowded(st) && NBUF <= cap
    {
      hide Inv, Abs, Enabled, Apply, BufOk, Load, Crowded, Pinned;
      var h;
      r, h := BreadHeader(p);
      if r != Done {
        return;
      }
      HeldHeader(g, st, p);
      var lh := ParseHeader(h);
      ReadStep(g, st, p);
      ghost var s0 := st;
      st := st.(lh := lh, logged := ReadLogged(g, st.disk, lh), phase := Recovering(p, 0));
      ReadPins(s0, st);
      LoadFalls(s0, st, p, {});
      ReleaseHeader(p);
    }

    /** begin_op, up to the point where it either enters or goes to sleep. */
    method BeginOp(p: Pid) returns (r: Outcome)
      requires Valid() && p !in st.ops && !st.phase.Boot? && !st.phase.Recovering?
      modifies this
      ensures Valid() && Abs(g, st) == Abs(g, old(st))
      ensures r == Done <==> old(st).phase.Running? && |old(st).lh| + (|old(st).ops| + 1) * MAXOPBLOCKS <= LOGSIZE
      ensures r == Done ==> st == old(st).(outstanding := old(st).outstanding + 1, ops := old(st).ops[p := {}])
      ensures r != Done ==> r == Sleeps && st == old(st)
    {
      hide Inv, Abs, DiskOk, Refines, BufOk;
      DiskSize(g, st);
      OpenCount(g, st);
      if !st.phase.Running? {
        return Sleeps;
      }
      if |st.lh| + (st.outstanding + 1) * MAXOPBLOCKS > LOGSIZE {
        return Sleeps;
      }
      BeginStep(g, st, p);
      st := st.(outstanding := st.outstanding + 1, ops := st.ops[p := {}]);
      r := Done;
    }

    /** log_write: absorb the block or append and pin it; panic when the log is full. */
    method LogWrite(p: Pid, b: nat) returns (r: Outcome)
      requires Valid() && Holds(st, p, b) && p in st.ops && g.IsHome(b) && |st.ops[p] + {b}| <= MAXOPBLOCKS
      modifies this
      ensures Valid() && (r == Panics <==> LogWritePanics(g, old(st)))
      ensures r == Panics ==> st == old(st)
      ensures r != Panics ==> r == Done && st == DoLogWrite(old(st), p, b)
      ensures r != Panics ==> Abs(g, st) == AbsApply(Abs(g, old(st)), old(st), LogMachine.Step.LogWrite(p, b))
    {
      hide Inv, Abs, DiskOk, BufOk;
      if |st.lh| >= LOGSIZE || |st.lh| >= g.size - 1 {
        return Panics;
      }
      var i := 0;
      while i < |st.lh| && st.lh[i] != b
        invariant i <= |st.lh| && b !in st.lh[..i] && st == old(st)
      {
        i := i + 1;
      }
      assert st.lh[..|st.lh|] == st.lh;
      assert i == |st.lh| <==> b !in st.lh;
      StepRefines(g, st, LogMachine.Step.LogWrite(p, b));
      var f := st.cache[b].(dirty := false);
      var lh := st.lh;
      if i == |lh| {
        lh := lh + [b];
        f := f.(refcnt := f.refcnt + 1);
      } else {
        lh := lh[i := b];
      }
      st := st.(lh := lh, cache := st.cache[b := f], ops := st.ops[p := st.ops[p] + {b}],
                logged := st.logged[b := f.data]);
      assert lh == DoLogWrite(old(st), p, b).lh && st == DoLogWrite(old(st), p, b);
      r := Done;
    }

    /** end_op: the last operation commits everything logged since the log was empty. */
    method EndOp(p: Pid) returns (r: Outcome)
      requires At(p, {}) && st.phase.Running? && p in st.ops
      modifies this
      ensures Valid() && Abs(g, st).view == Abs(g, old(st)).view
      ensures r == Done ==> At(p, {}) && st.phase.Running? && st.ops == old(st).ops - {p}
      ensures r == Done ==> if st.ops == map[] then st.lh == [] && Abs(g, st).durable == Abs(g, st).view
                            else st.lh == old(st).lh && Abs(g, st).durable == Abs(g, old(st)).durable
      ensures r != Done ==> r == Panics && Crowded(st) && NBUF <= cap && old(st).ops - {p} == map[]
                            && (Abs(g, st).durable == Abs(g, old(st)).durable || Abs(g, st).durable == Abs(g, st).view)
    {
      hide Inv, DiskOk, Abs, BufOk, Load, Crowded, Apply, Enabled;
      OpsCounted(g, st, p);
      EndStep(g, st, p);
      ghost var s0 := st;
      var n := st.outstanding - 1;
      st := st.(outstanding := n, ops := st.ops - {p},
                phase := if n > 0 then Running else if |st.lh| > 0 then WritingLog(p, 0) else Cleared(p));
      LoadFalls(s0, st, p, {});
      r := Done;
      if st.phase.WritingLog? || st.phase.Cleared? {
        r := CommitAndWake(p);
      }
    }

    /** The tail of end_op: commit, then clear log.committing. */
    method CommitAndWake(p: Pid) returns (r: Outcome)
      requires At(p, {}) && st.phase == if |st.lh| > 0 then WritingLog(p, 0) else Cleared(p)
      modifies this
      ensures Valid() && Abs(g, st).view == Abs(g, old(st)).view
      ensures r == Done ==>
                At(p, {}) && st.phase.Running? && st.lh == [] && st.ops == map[] &&
                Abs(g, st).durable == Abs(g, st).view
      ensures r != Done ==> r == Panics && Crowded(st) && NBUF <= cap
                            && (Abs(g, st).durable == Abs(g, old(st)).durable || Abs(g, st).durable == Abs(g, st).view)
    {
      hide DiskOk, Abs, BufOk, Load, Crowded, Inv, Mine;
      r := Commit(p);
      if r == Done {
        FinishStep(g, st, p);
        st := st.(phase := Running);
      }
    }
  }

  /** The end of a commit changes nothing but the phase. */
  lemma FinishStep(g: Geometry, s: State, p: Pid)
    requires Inv(g, s) && s.phase == Cleared(p) && s.lh == [] && Mine(s, p, {})
    ensures var t := s.(phase := Running);
            && Inv(g, t) && Mine(t, p, {}) && |Load(t, p, {})| <= |Load(s, p, {})| && t.ops == map[]
            && Abs(g, t).view == Abs(g, s).view && Abs(g, t).durable == Abs(g, t).view
  {
    hide DiskOk, Abs, BufOk, Load;
    var t := s.(phase := Running);
    StepRefines(g, s, FinishCommit(p));
    LoadFalls(s, t, p, {});
    CommitDone(g, t);
  }

  lemma OpenCount(g: Geometry, s: State)
    requires Inv(g, s)
    ensures s.outstanding == |s.ops|
  {
  }

  lemma BeginStep(g: Geometry, s: State, p: Pid)
    requires Inv(g, s) && Enabled(g, s, LogMachine.Step.BeginOp(p))
    ensures var t := s.(outstanding := s.outstanding + 1, ops := s.ops[p := {}]);
            DiskOk(g, s.disk) && Inv(g, t) && Abs(g, t) == Abs(g, s)
  {
    hide Abs, BufOk, Header, HeaderOk;
    StepRefines(g, s, LogMachine.Step.BeginOp(p));
  }

  lemma EndStep(g: Geometry, s: State, p: Pid)
    requires Inv(g, s) && Mine(s, p, {}) && s.phase.Running? && p in s.ops && s.outstanding > 0
    ensures var n := s.outstanding - 1;
            var t := s.(outstanding := n, ops := s.ops - {p},
                        phase := if n > 0 then Running else if |s.lh| > 0 then WritingLog(p, 0) else Cleared(p));
            && Inv(g, t) && DiskOk(g, s.disk) && Abs(g, t) == Abs(g, s)
  {
    hide Abs, BufOk, Header, HeaderOk;
    EndOpRefines(g, s, p);
    assert Without(s.ops, p) == s.ops - {p};
  }

  lemma OpsCounted(g: Geometry, s: State, p: Pid)
    requires Inv(g, s) && p in s.ops
    ensures s.outstanding == |s.ops| && s.outstanding > 0
    ensures s.outstanding == 1 <==> s.ops - {p} == map[]
  {
    assert (s.ops - {p}).Keys == s.ops.Keys - {p};
    assert |s.ops.Keys - {p}| == |s.ops.Keys| - 1;
    if s.outstanding == 1 { assert (s.ops - {p}).Keys == {}; }
    if s.ops - {p} == map[] { assert s.ops.Keys - {p} == {}; }
  }

  lemma CommitDone(g: Geometry, s: State)
    requires Inv(g, s) && s.phase.Running? && s.lh == []
    ensures Abs(g, s).durable == Abs(g, s).view
  {
    assert s.logged == map[];
    EmptyHeaderDurable(g, s.disk);
  }

  lemma HeadFacts(g: Geometry, s: State)
    requires Inv(g, s)
    ensures DiskOk(g, s.disk) && g.start < g.blocks && |s.disk| == g.blocks && Own(g, s, g.start)
    ensures |s.lh| <= LOGSIZE && forall i :: 0 <= i < |s.lh| ==> s.lh[i] < TWO32
  {
  }

  lemma HeldHeader(g: Geometry, s: State, p: Pid)
    requires Inv(g, s) && s.phase.Boot? && g.start in s.cache && s.cache[g.start].holder == Some(p)
    ensures DiskOk(g, s.disk) && Current(s, g.start) == s.disk[g.start]
  {
    HeldIs(g, s, p, g.start);
  }

  lemma HeadStep(g: Geometry, s: State, p: Pid)
    requires Inv(g, s) && s.phase == WritingLog(p, |s.lh|) && g.start in s.cache && s.cache[g.start].holder == Some(p)
    ensures g.start < |s.disk| && s.cache[g.start].data == Current(s, g.start)
    ensures |s.lh| <= LOGSIZE && forall i :: 0 <= i < |s.lh| ==> s.lh[i] < TWO32
    ensures Inv(g, DoWriteHead(g, s))
    ensures Abs(g, DoWriteHead(g, s)).durable == Abs(g, s).view == Abs(g, DoWriteHead(g, s)).view
  {
    hide Inv, Abs, DiskOk, Current, BufOk;
    HeadFacts(g, s);
    HeldIs(g, s, p, g.start);
    StepRefines(g, s, LogMachine.Step.WriteHead(p));
  }

  lemma ClearStep(g: Geometry, s: State, p: Pid)
    requires Inv(g, s) && (s.phase == Installing(p, |s.lh|) || s.phase == Recovering(p, |s.lh|))
    requires g.start in s.cache && s.cache[g.start].holder == Some(p)
    ensures g.start < |s.disk| && s.cache[g.start].data == Current(s, g.start)
    ensures Inv(g, DoClearHead(g, s)) && Abs(g, DoClearHead(g, s)) == Abs(g, s)
  {
    hide Inv, Abs, DiskOk, Current, BufOk;
    HeadFacts(g, s);
    HeldIs(g, s, p, g.start);
    StepRefines(g, s, LogMachine.Step.ClearHead(p));
  }

  lemma ReadStep(g: Geometry, s: State, p: Pid)
    requires Inv(g, s) && s.phase.Boot? && g.start in s.cache && s.cache[g.start].holder == Some(p)
    ensures DiskOk(g, s.disk) && forall i :: 0 <= i < |Header(s.disk[g.start])| ==> g.Slot(i) < |s.disk|
    ensures var lh := Header(s.disk[g.start]);
            var t := s.(lh := lh, logged := ReadLogged(g, s.disk, lh), phase := Recovering(p, 0));
            Inv(g, t) && Abs(g, t) == Abs(g, s)
  {
    HeldIs(g, s, p, g.start);
    StepRefines(g, s, LogMachine.Step.ReadHead(p));
  }

  /** One round of install_trans on a buffer that has been read. */
  lemma InstallMine(g: Geometry, s: State, p: Pid, tail: nat, data: Block)
    requires Inv(g, s) && (s.phase == Installing(p, tail) || s.phase == Recovering(p, tail)) && tail < |s.lh|
    requires Mine(s, p, {g.Slot(tail), s.lh[tail]}) && g.Slot(tail) < |s.disk| && s.lh[tail] < |s.disk|
    requires data == Current(s, g.Slot(tail)) && s.cache[s.lh[tail]].refcnt > 0
    requires data == s.cache[g.Slot(tail)].data
    ensures var w := Bwrite(s, s.lh[tail], data);
            var t := if s.phase.Installing? then Bunpin(w, s.lh[tail]).(phase := Installing(p, tail + 1))
                     else w.(phase := Recovering(p, tail + 1));
            && t == DoInstall(g, s) && Mine(t, p, {g.Slot(tail), s.lh[tail]})
            && |Load(t, p, {})| <= |Load(s, p, {})|
  {
    hide Inv, Abs, Load;
    LoadFalls(s, DoInstall(g, s), p, {});
  }

  lemma InstallFacts(g: Geometry, s: State, tail: nat)
    requires Inv(g, s) && (s.phase.Installing? || s.phase.Recovering?) && s.phase.tail == tail < |s.lh|
    ensures DiskOk(g, s.disk) && |s.disk| == g.blocks
    ensures g.Slot(tail) < g.blocks && s.lh[tail] < g.blocks && g.Slot(tail) != s.lh[tail]
    ensures s.phase.Installing? ==> s.lh[tail] in s.cache && s.cache[s.lh[tail]].refcnt > 0
  {
    if s.phase.Installing? {
      assert s.lh[tail] == Pinned(s)[0];
      assert BufOk(g, s, s.lh[tail]);
    }
  }

  lemma CopyPins(s: State, t: State)
    requires s.phase.WritingLog? && t.phase.WritingLog? && t.lh == s.lh
    ensures Pinned(t) == Pinned(s)
  {
  }

  lemma HeadPins(s: State, t: State)
    requires s.phase.WritingLog? && t.phase.Installing? && t.phase.tail == 0 && t.lh == s.lh
    ensures Pinned(t) == Pinned(s)
  {
  }

  lemma ClearPins(s: State, t: State)
    requires t.lh == []
    ensures Pinned(t) == []
  {
  }

  lemma ReadPins(s: State, t: State)
    requires t.phase.Recovering?
    ensures Pinned(t) == []
  {
  }

  lemma InstallStep(g: Geometry, s: State, p: Pid, tail: nat)
    requires Inv(g, s) && (s.phase == Installing(p, tail) || s.phase == Recovering(p, tail)) && tail < |s.lh|
    requires Mine(s, p, {g.Slot(tail), s.lh[tail]})
    ensures s.lh[tail] < |s.disk| && s.cache[s.lh[tail]].refcnt > 0
    ensures g.Slot(tail) < |s.disk| && s.cache[g.Slot(tail)].data == Current(s, g.Slot(tail))
    ensures Inv(g, DoInstall(g, s)) && Abs(g, DoInstall(g, s)) == Abs(g, s)
    ensures forall c :: c in Pinned(DoInstall(g, s)) ==> c in Pinned(s)
  {
    hide Inv, BufOk, Abs, DiskOk, Pinned, Current;
    InstallReady(g, s, p, tail);
    InstallPins(s, DoInstall(g, s));
    StepRefines(g, s, LogMachine.Step.Install(p));
  }

  lemma InstallReady(g: Geometry, s: State, p: Pid, tail: nat)
    requires Inv(g, s) && (s.phase == Installing(p, tail) || s.phase == Recovering(p, tail)) && tail < |s.lh|
    requires Mine(s, p, {g.Slot(tail), s.lh[tail]})
    ensures DiskOk(g, s.disk) && s.lh[tail] < |s.disk| && s.cache[s.lh[tail]].refcnt > 0
    ensures g.Slot(tail) < |s.disk| && s.cache[g.Slot(tail)].data == Current(s, g.Slot(tail))
    ensures Holds(s, p, g.Slot(tail)) && Holds(s, p, s.lh[tail]) && Distinct(s.lh)
  {
    hide Pinned, Current;
    InstallFacts(g, s, tail);
    HeldIs(g, s, p, g.Slot(tail));
    HeldIs(g, s, p, s.lh[tail]);
    assert BufOk(g, s, s.lh[tail]);
  }

  lemma ClearedMeaning(g: Geometry, s: State)
    requires Inv(g, s) && s.phase.Cleared?
    ensures Abs(g, s).durable == Abs(g, s).view == Homes(g, s.disk)
  {
    assert s.logged == map[];
    EmptyHeaderDurable(g, s.disk);
  }

  lemma RunningMeaning(g: Geometry, s: State)
    requires Inv(g, s) && s.phase.Running? && s.lh == []
    ensures Durable(g, s.disk) == Homes(g, s.disk)
  {
    EmptyHeaderDurable(g, s.disk);
  }

  lemma CopyFacts(g: Geometry, s: State, p: Pid, tail: nat)
    requires Inv(g, s) && s.phase == WritingLog(p, tail) && tail < |s.lh|
    ensures DiskOk(g, s.disk) && |s.disk| == g.blocks
    ensures g.Slot(tail) < g.blocks && s.lh[tail] < g.blocks && g.Slot(tail) != s.lh[tail]
    ensures s.lh[tail] in s.cache && s.cache[s.lh[tail]].refcnt > 0
  {
    assert BufOk(g, s, s.lh[tail]);
  }

  lemma CopyStep(g: Geometry, s: State, p: Pid, tail: nat)
    requires Inv(g, s) && s.phase == WritingLog(p, tail) && tail < |s.lh|
    requires Mine(s, p, {g.Slot(tail), s.lh[tail]})
    ensures g.Slot(tail) < |s.disk| && s.lh[tail] < |s.disk| && s.cache[s.lh[tail]].data == Current(s, s.lh[tail])
    ensures Inv(g, DoCopyToLog(g, s)) && Abs(g, DoCopyToLog(g, s)) == Abs(g, s)
  {
    HeldIs(g, s, p, g.Slot(tail));
    HeldIs(g, s, p, s.lh[tail]);
    StepRefines(g, s, CopyToLog(p));
  }

  lemma CleanInCommit(g: Geometry, s: State)
    requires Inv(g, s) && !s.phase.Running?
    ensures forall c :: c in s.cache && Own(g, s, c) ==> !s.cache[c].dirty
    ensures Own(g, s, g.start) && forall i :: 0 <= i < |s.lh| ==> Own(g, s, g.Slot(i)) && Own(g, s, s.lh[i])
  {
    forall c | c in s.cache && Own(g, s, c) ensures !s.cache[c].dirty { assert BufOk(g, s, c); }
  }
}
