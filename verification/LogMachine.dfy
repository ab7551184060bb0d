/** The buffer cache (kernel/bio.c) and the redo log (kernel/log.c) as one state machine.
    A step is a section of code that runs under one lock, or while its buffers are locked,
    and holds at most one disk write; any two steps of different processes may interleave,
    and a crash may happen between any two of them. */
module LogMachine {
  import opened Base
  import opened Blocks
  import opened LogFormat

  type Pid = nat

  /** One cached block. `refcnt` is the kernel's counter; `waiters` counts processes between
      bget's increment and their acquiresleep; `dirty` says that the holder changed the data
      since the last log_write. */
  datatype Buf = Buf(valid: bool, data: Block, refcnt: nat, waiters: nat, holder: Option<Pid>, dirty: bool)

  datatype Phase =
    | Boot                              // powered on, log header not yet read
    | Recovering(who: Pid, tail: nat)    // recover_from_log, `tail` blocks installed
    | Running                           // log.committing == 0
    | WritingLog(who: Pid, tail: nat)    // commit: `tail` blocks copied to the log
    | Installing(who: Pid, tail: nat)    // commit: header written, `tail` blocks installed
    | Cleared(who: Pid)                  // commit: header erased, committing not yet reset

  /** `ops` maps each outstanding operation to the blocks it has logged so far, and `logged`
      maps each block of the current transaction to the content last passed to log_write. */
  datatype State = State(
    disk: Disk, cache: map<nat, Buf>, lh: seq<nat>, outstanding: nat,
    ops: map<Pid, set<nat>>, logged: map<nat, Block>, phase: Phase)

  datatype Step =
    | BeginOp(p: Pid)
    | EndOp(p: Pid)
    | Bget(p: Pid, b: nat, victim: Option<nat>)
    | Lock(p: Pid, b: nat)
    | Modify(p: Pid, b: nat, data: Block)
    | LogWrite(p: Pid, b: nat)
    | Brelse(p: Pid, b: nat)
    | Abandon(p: Pid, b: nat)
    | CopyToLog(p: Pid)
    | WriteHead(p: Pid)
    | Install(p: Pid)
    | ClearHead(p: Pid)
    | FinishCommit(p: Pid)
    | ReadHead(p: Pid)
    | Crash

  predicate Holds(s: State, p: Pid, b: nat) {
    b in s.cache && s.cache[b].holder == Some(p) && s.cache[b].valid
  }

  /** log_write's first test (it comes before absorption). */
  predicate LogWritePanics(g: Geometry, s: State) {
    |s.lh| >= LOGSIZE || |s.lh| >= g.size - 1
  }

  /** The buffers bget may hand out for an uncached block: a spare one or an unused one. */
  predicate BgetFinds(s: State, b: nat, victim: Option<nat>) {
    || b in s.cache
    || (victim.None? && |s.cache| < NBUF)
    || (victim.Some? && victim.value in s.cache && s.cache[victim.value].refcnt == 0)
  }

  /** When a step can happen. Guards that are not tests in the kernel are the discipline of
      its callers: blocks are changed only inside an operation, logged before release, and an
      operation logs at most MAXOPBLOCKS blocks. */
  predicate Enabled(g: Geometry, s: State, step: Step) {
    match step
    case BeginOp(p) =>
      s.phase.Running? && p !in s.ops && |s.lh| + (s.outstanding + 1) * MAXOPBLOCKS <= LOGSIZE
    case EndOp(p) =>
      s.phase.Running? && p in s.ops && forall b :: b in s.cache && s.cache[b].dirty ==> s.cache[b].holder != Some(p)
    case Bget(p, b, victim) =>
      b < g.blocks && BgetFinds(s, b, victim)
    case Lock(p, b) =>
      b < |s.disk| && b in s.cache && s.cache[b].holder.None? && s.cache[b].waiters > 0
    case Modify(p, b, data) =>
      Holds(s, p, b) && p in s.ops && g.IsHome(b)
    case LogWrite(p, b) =>
      Holds(s, p, b) && p in s.ops && g.IsHome(b) && |s.ops[p] + {b}| <= MAXOPBLOCKS && !LogWritePanics(g, s)
    case Brelse(p, b) =>
      Holds(s, p, b) && !s.cache[b].dirty && s.cache[b].refcnt > 0
    case Abandon(p, b) =>
      Holds(s, p, b) && s.cache[b].dirty && s.cache[b].refcnt > 0
    case CopyToLog(p) =>
      && s.phase.WritingLog? && s.phase.who == p && s.phase.tail < |s.lh| && g.Slot(s.phase.tail) < |s.disk|
      && Holds(s, p, g.Slot(s.phase.tail)) && Holds(s, p, s.lh[s.phase.tail])
    case WriteHead(p) =>
      && s.phase.WritingLog? && s.phase.who == p && s.phase.tail == |s.lh| <= LOGSIZE && g.start < |s.disk|
      && (forall i :: 0 <= i < |s.lh| ==> s.lh[i] < TWO32)
      && Holds(s, p, g.start)
    case Install(p) =>
      && (s.phase.Installing? || s.phase.Recovering?) && s.phase.who == p && s.phase.tail < |s.lh|
      && s.lh[s.phase.tail] < |s.disk|
      && Holds(s, p, g.Slot(s.phase.tail)) && Holds(s, p, s.lh[s.phase.tail])
      && s.cache[s.lh[s.phase.tail]].refcnt > 0
    case ClearHead(p) =>
      && (s.phase.Installing? || s.phase.Recovering?) && s.phase.who == p && s.phase.tail == |s.lh|
      && g.start < |s.disk| && Holds(s, p, g.start)
    case FinishCommit(p) =>
      s.phase == Cleared(p)
    case ReadHead(p) =>
      && s.phase.Boot? && Holds(s, p, g.start) && g.start < |s.disk|
      && forall i :: 0 <= i < |Header(s.disk[g.start])| ==> g.Slot(i) < |s.disk|
    case Crash =>
      true
  }

  function ReadLogged(g: Geometry, d: Disk, lh: seq<nat>): map<nat, Block>
    requires forall i :: 0 <= i < |lh| ==> g.Slot(i) < |d|
  {
    map b | b in lh :: d[g.Slot(IndexOf(lh, b))]
  }

  /** bget: share the cached buffer, or recycle one that nobody uses. */
  function DoBget(s: State, b: nat, victim: Option<nat>): State
    requires BgetFinds(s, b, victim)
  {
    if b in s.cache then
      var f := s.cache[b];
      s.(cache := s.cache[b := f.(refcnt := f.refcnt + 1, waiters := f.waiters + 1)])
    else if victim.Some? then
      s.(cache := (s.cache - {victim.value})[b := Buf(false, s.cache[victim.value].data, 1, 1, None, false)])
    else
      s.(cache := s.cache[b := Buf(false, ZeroBlock(), 1, 1, None, false)])
  }

  /** The rest of bread: take the buffer's sleep lock and read the disk if it is not valid. */
  function DoLock(s: State, p: Pid, b: nat): State
    requires b < |s.disk| && b in s.cache && s.cache[b].waiters > 0
  {
    var f := s.cache[b];
    var data := if f.valid then f.data else s.disk[b];
    s.(cache := s.cache[b := f.(valid := true, data := data, waiters := f.waiters - 1, holder := Some(p))])
  }

  function DoModify(s: State, b: nat, data: Block): State
    requires b in s.cache
  {
    s.(cache := s.cache[b := s.cache[b].(data := data, dirty := true)])
  }

  function DoBrelse(s: State, b: nat): State
    requires b in s.cache && s.cache[b].refcnt > 0
  {
    s.(cache := s.cache[b := s.cache[b].(refcnt := s.cache[b].refcnt - 1, holder := None)])
  }

  /** brelse of a changed buffer that has not been passed to log_write, as after a failed copy. If the
      block is part of the transaction already, the commit will take the change with it, as if it
      had been logged. If not, the change stays in the cache until somebody logs the block or the
      buffer is recycled. */
  function DoAbandon(s: State, b: nat): State
    requires b in s.cache && s.cache[b].refcnt > 0
  {
    var t := DoBrelse(s, b);
    if b in s.lh then t.(cache := t.cache[b := t.cache[b].(dirty := false)], logged := s.logged[b := s.cache[b].data])
    else t
  }

  /** log_write: absorb the block if the header already lists it, else append and pin it. */
  function DoLogWrite(s: State, p: Pid, b: nat): State
    requires b in s.cache && p in s.ops
  {
    var f := s.cache[b];
    var pin := if b in s.lh then 0 else 1;
    s.(lh := if b in s.lh then s.lh else s.lh + [b],
       cache := s.cache[b := f.(refcnt := f.refcnt + pin, dirty := false)],
       ops := s.ops[p := s.ops[p] + {b}],
       logged := s.logged[b := f.data])
  }

  /** memmove into a locked buffer, then bwrite: one atomic block write. */
  function Bwrite(s: State, b: nat, data: Block): State
    requires b in s.cache && b < |s.disk|
  {
    s.(disk := s.disk[b := data], cache := s.cache[b := s.cache[b].(data := data)])
  }

  function Bunpin(s: State, b: nat): State
    requires b in s.cache && s.cache[b].refcnt > 0
  {
    s.(cache := s.cache[b := s.cache[b].(refcnt := s.cache[b].refcnt - 1)])
  }

  /** One round of write_log: the cached block goes to its log slot. */
  function DoCopyToLog(g: Geometry, s: State): State
    requires s.phase.WritingLog? && s.phase.tail < |s.lh| && g.Slot(s.phase.tail) < |s.disk|
    requires g.Slot(s.phase.tail) in s.cache && s.lh[s.phase.tail] in s.cache
  {
    Bwrite(s, g.Slot(s.phase.tail),
      s.cache[s.lh[s.phase.tail]].data).(phase := WritingLog(s.phase.who, s.phase.tail + 1))
  }

  /** The first write_head of a commit. */
  function DoWriteHead(g: Geometry, s: State): State
    requires s.phase.WritingLog? && |s.lh| <= LOGSIZE && g.start < |s.disk| && g.start in s.cache
    requires forall i :: 0 <= i < |s.lh| ==> s.lh[i] < TWO32
  {
    Bwrite(s, g.start, EncodeHeader(s.cache[g.start].data, s.lh)).(phase := Installing(s.phase.who, 0))
  }

  /** One round of install_trans: the log slot goes home; a commit also unpins the buffer. */
  function DoInstall(g: Geometry, s: State): State
    requires (s.phase.Installing? || s.phase.Recovering?) && s.phase.tail < |s.lh|
    requires s.lh[s.phase.tail] < |s.disk|
    requires g.Slot(s.phase.tail) in s.cache && s.lh[s.phase.tail] in s.cache
    requires s.cache[s.lh[s.phase.tail]].refcnt > 0
  {
    var t := Bwrite(s, s.lh[s.phase.tail], s.cache[g.Slot(s.phase.tail)].data);
    if s.phase.Installing? then Bunpin(t, s.lh[s.phase.tail]).(phase := Installing(s.phase.who, s.phase.tail + 1))
    else t.(phase := Recovering(s.phase.who, s.phase.tail + 1))
  }

  /** n = 0 and the second write_head. */
  function DoClearHead(g: Geometry, s: State): State
    requires s.phase.Installing? || s.phase.Recovering?
    requires g.start < |s.disk| && g.start in s.cache
  {
    Bwrite(s, g.start, EncodeHeader(s.cache[g.start].data, [])).(
      lh := [], logged := map[], phase := if s.phase.Installing? then Cleared(s.phase.who) else Running)
  }

  /** The effect of a step. */
  function Apply(g: Geometry, s: State, step: Step): (t: State)
    requires Enabled(g, s, step)
  {
    match step
    case BeginOp(p) =>
      s.(outstanding := s.outstanding + 1, ops := s.ops[p := {}])
    case EndOp(p) =>
      var n := if s.outstanding > 0 then s.outstanding - 1 else 0;
      s.(outstanding := n, ops := Without(s.ops, p),
         phase := if n > 0 then Running else if |s.lh| > 0 then WritingLog(p, 0) else Cleared(p))
    case Bget(p, b, victim) => DoBget(s, b, victim)
    case Lock(p, b) => DoLock(s, p, b)
    case Modify(p, b, data) => DoModify(s, b, data)
    case LogWrite(p, b) => DoLogWrite(s, p, b)
    case Brelse(p, b) => DoBrelse(s, b)
    case Abandon(p, b) => DoAbandon(s, b)
    case CopyToLog(p) => DoCopyToLog(g, s)
    case WriteHead(p) => DoWriteHead(g, s)
    case Install(p) => DoInstall(g, s)
    case ClearHead(p) => DoClearHead(g, s)
    case FinishCommit(p) =>
      s.(phase := Running)
    case ReadHead(p) =>
      var lh := Header(s.disk[g.start]);
      s.(lh := lh, logged := ReadLogged(g, s.disk, lh), phase := Recovering(p, 0))
    case Crash =>
      PowerOn(s.disk)
  }

  /** Only the disk survives a crash. */
  function PowerOn(d: Disk): State {
    State(d, map[], [], 0, map[], map[], Boot)
  }

  // ---------------------------------------------------------------- the invariant

  function Without(ops: map<Pid, set<nat>>, p: Pid): (r: map<Pid, set<nat>>)
    ensures r.Keys == ops.Keys - {p}
  {
    ops - {p}
  }

  ghost function Unspent(ops: map<Pid, set<nat>>): int {
    if |ops| == 0 then 0
    else
      var p :| p in ops;
      MAXOPBLOCKS - |ops[p]| + Unspent(Without(ops, p))
  }

  /** The blocks whose buffers log_write has pinned. */
  function Pinned(s: State): seq<nat> {
    match s.phase
    case Running => s.lh
    case WritingLog(_, _) => s.lh
    case Installing(_, t) => if t <= |s.lh| then s.lh[t..] else []
    case _ => []
  }

  ghost predicate InvLog(g: Geometry, s: State) {
    && HeaderOk(g, s.lh)
    && (forall b :: b in s.logged <==> b in s.lh)
    && (s.phase.Boot? || s.phase.Cleared? ==> s.lh == [])
    && (s.phase.WritingLog? || s.phase.Installing? || s.phase.Recovering? ==> s.phase.tail <= |s.lh|)
  }

  ghost predicate InvDisk(g: Geometry, s: State)
    requires InvLog(g, s)
  {
    && DiskOk(g, s.disk)
    && match s.phase
       case Boot => true
       case Running => Header(s.disk[g.start]) == []
       case Cleared(_) => Header(s.disk[g.start]) == []
       case WritingLog(_, t) =>
         && Header(s.disk[g.start]) == []
         && forall i :: 0 <= i < t ==> s.disk[g.Slot(i)] == s.logged[s.lh[i]]
       case Installing(_, t) => Installed(g, s, t)
       case Recovering(_, t) => Installed(g, s, t)
  }

  ghost predicate Installed(g: Geometry, s: State, t: nat)
    requires InvLog(g, s) && DiskOk(g, s.disk) && t <= |s.lh|
  {
    && Header(s.disk[g.start]) == s.lh
    && (forall i :: 0 <= i < |s.lh| ==> s.disk[g.Slot(i)] == s.logged[s.lh[i]])
    && (forall i :: 0 <= i < t ==> s.disk[s.lh[i]] == s.logged[s.lh[i]])
  }

  ghost predicate InvOps(g: Geometry, s: State) {
    && s.outstanding == |s.ops|
    && (!s.phase.Running? ==> s.ops == map[])
    && (forall p, b :: p in s.ops && b in s.ops[p] ==> b in s.lh)
    && (forall p :: p in s.ops ==> |s.ops[p]| <= MAXOPBLOCKS)
    && (s.phase.Running? ==> |s.lh| + Unspent(s.ops) <= LOGSIZE)
  }

  /** What a cached copy of block `b` must hold when its holder has not changed it. */
  function Current(s: State, b: nat): Block
    requires b < |s.disk|
  {
    if b in s.logged && !s.phase.Recovering? then s.logged[b] else s.disk[b]
  }

  ghost predicate BufOk(g: Geometry, s: State, b: nat)
    requires b in s.cache && |s.disk| == g.blocks
  {
    var f := s.cache[b];
    && b < g.blocks
    && f.refcnt == f.waiters + (if f.holder.Some? then 1 else 0) + (if b in Pinned(s) then 1 else 0)
    && (f.dirty ==> f.valid && g.IsHome(b) && !s.phase.Boot? && !s.phase.Recovering?)
    && (f.dirty && b in s.lh ==> f.holder.Some? && f.holder.value in s.ops)
    && (f.holder.Some? ==> f.valid)
    && (f.valid && !f.dirty ==> f.data == Current(s, b))
  }

  ghost predicate InvCache(g: Geometry, s: State)
    requires |s.disk| == g.blocks
  {
    && |s.cache| <= NBUF
    && (forall b :: b in s.cache ==> BufOk(g, s, b))
    && (forall b :: b in Pinned(s) ==> b in s.cache && s.cache[b].valid)
  }

  ghost predicate Inv(g: Geometry, s: State) {
    InvLog(g, s) && InvDisk(g, s) && InvOps(g, s) && InvCache(g, s)
  }

  // ---------------------------------------------------------------- the specification

  /** An atomic transactional block store: what a crash would leave, and what readers see. */
  datatype Store = Store(durable: map<nat, Block>, view: map<nat, Block>)

  function View(g: Geometry, s: State): map<nat, Block>
    requires DiskOk(g, s.disk)
  {
    if s.phase.Boot? then Durable(g, s.disk)
    else map b: nat | b < g.blocks && g.IsHome(b) :: if b in s.logged then s.logged[b] else s.disk[b]
  }

  function Abs(g: Geometry, s: State): Store
    requires DiskOk(g, s.disk)
  {
    Store(Durable(g, s.disk), View(g, s))
  }

  /** The steps of the store: log_write changes the view, the first write_head makes the whole
      view durable, a crash falls back to the durable content, and nothing else is visible. */
  function AbsApply(a: Store, s: State, step: Step): Store
    requires step.LogWrite? || step.Abandon? ==> step.b in s.cache
  {
    match step
    case LogWrite(p, b) => a.(view := a.view[b := s.cache[b].data])
    case Abandon(p, b) => if b in s.lh then a.(view := a.view[b := s.cache[b].data]) else a
    case WriteHead(p) => a.(durable := a.view)
    case Crash => a.(view := a.durable)
    case _ => a
  }

  // ---------------------------------------------------------------- counting the reservation

  lemma UnspentRemove(ops: map<Pid, set<nat>>, p: Pid)
    requires p in ops
    ensures Unspent(ops) == MAXOPBLOCKS - |ops[p]| + Unspent(Without(ops, p))
    decreases |ops|
  {
    var c :| c in ops && Unspent(ops) == MAXOPBLOCKS - |ops[c]| + Unspent(Without(ops, c));
    if c != p {
      var oc, op := Without(ops, c), Without(ops, p);
      UnspentRemove(oc, p);
      UnspentRemove(op, c);
      assert Without(oc, p) == Without(op, c);
    }
  }

  lemma UnspentUpdate(ops: map<Pid, set<nat>>, p: Pid, x: set<nat>)
    ensures Unspent(ops[p := x]) == MAXOPBLOCKS - |x| + Unspent(Without(ops, p))
  {
    UnspentRemove(ops[p := x], p);
    assert Without(ops[p := x], p) == Without(ops, p);
  }

  lemma {:induction false} UnspentBounds(ops: map<Pid, set<nat>>)
    requires forall p :: p in ops ==> |ops[p]| <= MAXOPBLOCKS
    ensures 0 <= Unspent(ops) <= |ops| * MAXOPBLOCKS
    decreases |ops|
  {
    if |ops| != 0 {
      var p :| p in ops;
      UnspentBounds(Without(ops, p));
      UnspentRemove(ops, p);
    }
  }

  // ---------------------------------------------------------------- one step

  /** What every step must do: keep the invariant and move the store as AbsApply says. */
  ghost predicate Refines(g: Geometry, s: State, step: Step, t: State)
    requires DiskOk(g, s.disk)
    requires step.LogWrite? || step.Abandon? ==> step.b in s.cache
  {
    Inv(g, t) && Abs(g, t) == AbsApply(Abs(g, s), s, step)
  }

  lemma BeginOpKeepsOps(g: Geometry, s: State, p: Pid)
    requires InvOps(g, s) && s.phase.Running? && p !in s.ops
    requires |s.lh| + (s.outstanding + 1) * MAXOPBLOCKS <= LOGSIZE
    ensures InvOps(g, s.(outstanding := s.outstanding + 1, ops := s.ops[p := {}]))
  {
    hide Unspent;
    var t := s.(outstanding := s.outstanding + 1, ops := s.ops[p := {}]);
    assert t.ops.Keys == s.ops.Keys + {p};
    assert forall q :: q in t.ops ==> |t.ops[q]| <= MAXOPBLOCKS;
    UnspentBounds(t.ops);
  }

  lemma BeginOpKeepsCache(g: Geometry, s: State, p: Pid)
    requires |s.disk| == g.blocks && InvCache(g, s) && Enabled(g, s, BeginOp(p))
    ensures InvCache(g, Apply(g, s, BeginOp(p)))
  {
    var t := Apply(g, s, BeginOp(p));
    forall b | b in t.cache ensures BufOk(g, t, b) {
      assert BufOk(g, s, b);
    }
  }

  lemma BeginOpRefines(g: Geometry, s: State, p: Pid)
    requires Inv(g, s) && Enabled(g, s, BeginOp(p))
    ensures Refines(g, s, BeginOp(p), Apply(g, s, BeginOp(p)))
  {
    BeginOpKeepsOps(g, s, p);
    BeginOpKeepsCache(g, s, p);
    PhaseOnlyRefines(g, s, Apply(g, s, BeginOp(p)));
  }

  lemma EndOpKeepsOps(g: Geometry, s: State, p: Pid)
    requires InvOps(g, s) && Enabled(g, s, EndOp(p))
    ensures InvOps(g, Apply(g, s, EndOp(p)))
  {
    UnspentRemove(s.ops, p);
    var t := Apply(g, s, EndOp(p));
    assert t.ops.Keys == s.ops.Keys - {p};
    assert |t.ops| == |s.ops| - 1;
    if t.outstanding == 0 {
      assert t.ops == map[];
    }
  }

  lemma EndOpKeepsCache(g: Geometry, s: State, p: Pid)
    requires |s.disk| == g.blocks && InvCache(g, s) && Enabled(g, s, EndOp(p))
    ensures InvCache(g, Apply(g, s, EndOp(p)))
  {
    var t := Apply(g, s, EndOp(p));
    assert Pinned(t) == Pinned(s) || t.phase.Cleared?;
    assert t.phase.Cleared? ==> Pinned(s) == [];
    forall b | b in t.cache ensures BufOk(g, t, b) {
      assert BufOk(g, s, b);
    }
  }

  /** A step that leaves the disk, the header and the logged contents alone. */
  lemma PhaseOnlyRefines(g: Geometry, s: State, t: State)
    requires InvLog(g, s) && InvDisk(g, s)
    requires t.disk == s.disk && t.lh == s.lh && t.logged == s.logged
    requires s.phase.Running? || s.phase.Cleared?
    requires t.phase.Running? || (t.phase.Cleared? && t.lh == []) || (t.phase.WritingLog? && t.phase.tail == 0)
    ensures InvLog(g, t) && InvDisk(g, t) && Abs(g, t) == Abs(g, s)
  {
  }

  lemma EndOpRefines(g: Geometry, s: State, p: Pid)
    requires Inv(g, s) && Enabled(g, s, EndOp(p))
    ensures Refines(g, s, EndOp(p), Apply(g, s, EndOp(p)))
  {
    EndOpKeepsOps(g, s, p);
    EndOpKeepsCache(g, s, p);
    PhaseOnlyRefines(g, s, Apply(g, s, EndOp(p)));
  }

  /** A step that changes only the cache is invisible to the store. */
  lemma CacheOnlyRefines(g: Geometry, s: State, t: State)
    requires Inv(g, s)
    requires t == s.(cache := t.cache) && InvCache(g, t)
    ensures Inv(g, t) && Abs(g, t) == Abs(g, s)
  {
  }

  lemma BgetSize(s: State, b: nat, victim: Option<nat>)
    requires BgetFinds(s, b, victim) && |s.cache| <= NBUF
    ensures |DoBget(s, b, victim).cache| <= NBUF
  {
    var t := DoBget(s, b, victim);
    if b in s.cache {
      assert t.cache.Keys == s.cache.Keys;
    } else if victim.Some? {
      assert t.cache.Keys == s.cache.Keys - {victim.value} + {b};
    } else {
      assert t.cache.Keys == s.cache.Keys + {b};
    }
  }

  lemma BgetKeepsBuf(g: Geometry, s: State, b: nat, victim: Option<nat>, c: nat)
    requires |s.disk| == g.blocks && BgetFinds(s, b, victim) && b < g.blocks
    requires b !in s.cache ==> b !in Pinned(s)
    requires c in DoBget(s, b, victim).cache && (c in s.cache ==> BufOk(g, s, c))
    ensures BufOk(g, DoBget(s, b, victim), c)
  {
    var t := DoBget(s, b, victim);
    assert Pinned(t) == Pinned(s);
    if c == b {
    } else {
      assert c in s.cache && t.cache[c] == s.cache[c];
    }
  }

  lemma BgetKeepsCache(g: Geometry, s: State, b: nat, victim: Option<nat>)
    requires |s.disk| == g.blocks && InvCache(g, s) && BgetFinds(s, b, victim) && b < g.blocks
    ensures InvCache(g, DoBget(s, b, victim))
  {
    var t := DoBget(s, b, victim);
    BgetSize(s, b, victim);
    assert Pinned(t) == Pinned(s);
    forall c | c in t.cache ensures BufOk(g, t, c) {
      BgetKeepsBuf(g, s, b, victim, c);
    }
    forall c | c in Pinned(t) ensures c in t.cache && t.cache[c].valid {
      assert BufOk(g, s, c);
    }
  }

  lemma LockKeepsCache(g: Geometry, s: State, p: Pid, b: nat)
    requires |s.disk| == g.blocks && InvCache(g, s)
    requires b in s.cache && s.cache[b].holder.None? && s.cache[b].waiters > 0
    requires b in s.logged && !s.phase.Recovering? ==> b in Pinned(s) || s.logged[b] == s.disk[b]
    ensures b < |s.disk| && InvCache(g, DoLock(s, p, b))
  {
    assert BufOk(g, s, b);
    var t := DoLock(s, p, b);
    assert t.cache.Keys == s.cache.Keys;
    assert Pinned(t) == Pinned(s);
    forall c | c in t.cache ensures BufOk(g, t, c) {
      assert BufOk(g, s, c);
    }
  }

  lemma ModifyKeepsCache(g: Geometry, s: State, p: Pid, b: nat, data: Block)
    requires |s.disk| == g.blocks && InvCache(g, s) && s.phase.Running?
    requires Holds(s, p, b) && p in s.ops && g.IsHome(b)
    ensures InvCache(g, DoModify(s, b, data))
  {
    var t := DoModify(s, b, data);
    assert t.cache.Keys == s.cache.Keys;
    assert Pinned(t) == Pinned(s);
    forall c | c in t.cache ensures BufOk(g, t, c) {
      assert BufOk(g, s, c);
    }
  }

  lemma BrelseKeepsCache(g: Geometry, s: State, p: Pid, b: nat)
    requires |s.disk| == g.blocks && InvCache(g, s)
    requires Holds(s, p, b) && !s.cache[b].dirty
    ensures s.cache[b].refcnt > 0 && InvCache(g, DoBrelse(s, b))
  {
    assert BufOk(g, s, b);
    var t := DoBrelse(s, b);
    assert t.cache.Keys == s.cache.Keys;
    assert Pinned(t) == Pinned(s);
    forall c | c in t.cache ensures BufOk(g, t, c) {
      assert BufOk(g, s, c);
    }
  }

  lemma AbandonKeepsCache(g: Geometry, s: State, p: Pid, b: nat)
    requires |s.disk| == g.blocks && InvCache(g, s) && InvLog(g, s)
    requires Holds(s, p, b) && s.cache[b].dirty
    ensures s.cache[b].refcnt > 0 && InvCache(g, DoAbandon(s, b))
  {
    hide BufOk, HeaderOk;
    HeldCount(g, s, p, b);
    var t := DoAbandon(s, b);
    assert t.cache.Keys == s.cache.Keys;
    assert Pinned(t) == Pinned(s);
    forall c | c in t.cache ensures BufOk(g, t, c) {
      AbandonKeepsBuf(g, s, p, b, c);
    }
    forall c | c in Pinned(t) ensures c in t.cache && t.cache[c].valid {
    }
  }

  lemma HeldCount(g: Geometry, s: State, p: Pid, b: nat)
    requires |s.disk| == g.blocks && Holds(s, p, b) && BufOk(g, s, b)
    ensures s.cache[b].refcnt > 0
  {
  }

  lemma AbandonKeepsBuf(g: Geometry, s: State, p: Pid, b: nat, c: nat)
    requires |s.disk| == g.blocks && InvLog(g, s) && c in s.cache && BufOk(g, s, c)
    requires Holds(s, p, b) && BufOk(g, s, b) && s.cache[b].dirty && s.cache[b].refcnt > 0
    ensures c in DoAbandon(s, b).cache && BufOk(g, DoAbandon(s, b), c)
  {
    hide HeaderOk;
    var t := DoAbandon(s, b);
    assert Pinned(t) == Pinned(s);
    if c != b { assert t.cache[c] == s.cache[c] && Current(t, c) == Current(s, c); }
  }

  /** Only operations change logged blocks, so such a change comes while nothing is committed. */
  lemma AbandonRefines(g: Geometry, s: State, p: Pid, b: nat)
    requires Inv(g, s) && Enabled(g, s, Abandon(p, b))
    ensures Refines(g, s, Abandon(p, b), Apply(g, s, Abandon(p, b)))
  {
    AbandonKeepsCache(g, s, p, b);
    if b in s.lh {
      AbandonMoves(g, s, p, b);
    } else {
      CacheOnlyRefines(g, s, DoAbandon(s, b));
    }
  }

  lemma AbandonMoves(g: Geometry, s: State, p: Pid, b: nat)
    requires DiskOk(g, s.disk) && Inv(g, s) && Holds(s, p, b)
    requires s.cache[b].dirty && s.cache[b].refcnt > 0 && b in s.lh
    ensures var t := DoAbandon(s, b);
            && InvLog(g, t) && InvDisk(g, t) && InvOps(g, t)
            && Abs(g, t) == Abs(g, s).(view := View(g, s)[b := s.cache[b].data])
  {
    hide Abs, View, HeaderOk, Header;
    assert BufOk(g, s, b);
    assert s.phase.Running?;
    AbandonKeepsDisk(g, s, b);
  }

  lemma AbandonKeepsDisk(g: Geometry, s: State, b: nat)
    requires InvLog(g, s) && InvDisk(g, s) && s.phase.Running? && b in s.lh && b in s.cache && s.cache[b].refcnt > 0
    requires g.IsHome(b)
    ensures var t := DoAbandon(s, b);
            InvLog(g, t) && InvDisk(g, t) && Abs(g, t) == Abs(g, s).(view := View(g, s)[b := s.cache[b].data])
  {
    assert View(g, DoAbandon(s, b)) == View(g, s)[b := s.cache[b].data];
  }

  lemma BgetRefines(g: Geometry, s: State, p: Pid, b: nat, victim: Option<nat>)
    requires Inv(g, s) && Enabled(g, s, Bget(p, b, victim))
    ensures Refines(g, s, Bget(p, b, victim), Apply(g, s, Bget(p, b, victim)))
  {
    BgetKeepsCache(g, s, b, victim);
    CacheOnlyRefines(g, s, DoBget(s, b, victim));
  }

  lemma LockRefines(g: Geometry, s: State, p: Pid, b: nat)
    requires Inv(g, s) && Enabled(g, s, Lock(p, b))
    ensures Refines(g, s, Lock(p, b), Apply(g, s, Lock(p, b)))
  {
    LockKeepsCache(g, s, p, b);
    CacheOnlyRefines(g, s, DoLock(s, p, b));
  }

  lemma ModifyRefines(g: Geometry, s: State, p: Pid, b: nat, data: Block)
    requires Inv(g, s) && Enabled(g, s, Modify(p, b, data))
    ensures Refines(g, s, Modify(p, b, data), Apply(g, s, Modify(p, b, data)))
  {
    ModifyKeepsCache(g, s, p, b, data);
    CacheOnlyRefines(g, s, DoModify(s, b, data));
  }

  lemma BrelseRefines(g: Geometry, s: State, p: Pid, b: nat)
    requires Inv(g, s) && Enabled(g, s, Brelse(p, b))
    ensures Refines(g, s, Brelse(p, b), Apply(g, s, Brelse(p, b)))
  {
    BrelseKeepsCache(g, s, p, b);
    CacheOnlyRefines(g, s, DoBrelse(s, b));
  }

  lemma LogWriteUnspent(ops: map<Pid, set<nat>>, p: Pid, b: nat)
    requires p in ops
    ensures Unspent(ops[p := ops[p] + {b}]) == Unspent(ops) - (if b in ops[p] then 0 else 1)
  {
    UnspentRemove(ops, p);
    UnspentUpdate(ops, p, ops[p] + {b});
    if b in ops[p] { assert ops[p] + {b} == ops[p]; }
  }

  lemma LogWriteKeepsOps(g: Geometry, s: State, p: Pid, b: nat)
    requires InvOps(g, s) && s.phase.Running? && p in s.ops && b in s.cache
    requires |s.ops[p] + {b}| <= MAXOPBLOCKS
    ensures InvOps(g, DoLogWrite(s, p, b))
  {
    var t := DoLogWrite(s, p, b);
    assert t.ops.Keys == s.ops.Keys;
    LogWriteUnspent(s.ops, p, b);
    assert b !in s.lh ==> b !in s.ops[p];
    assert forall q, c :: q in t.ops && c in t.ops[q] ==> c in t.lh;
  }

  lemma DistinctAppend(s: seq<nat>, b: nat)
    requires Distinct(s) && b !in s
    ensures Distinct(s + [b])
  {
  }

  lemma LogWriteKeepsLog(g: Geometry, s: State, p: Pid, b: nat)
    requires InvLog(g, s) && s.phase.Running? && p in s.ops && b in s.cache && g.IsHome(b)
    requires !LogWritePanics(g, s)
    ensures InvLog(g, DoLogWrite(s, p, b))
  {
    if b !in s.lh { DistinctAppend(s.lh, b); }
  }

  lemma LogWriteKeepsCache(g: Geometry, s: State, p: Pid, b: nat)
    requires |s.disk| == g.blocks && InvCache(g, s) && s.phase.Running?
    requires Holds(s, p, b) && p in s.ops
    ensures InvCache(g, DoLogWrite(s, p, b))
  {
    var t := DoLogWrite(s, p, b);
    assert t.cache.Keys == s.cache.Keys;
    assert forall c :: c in Pinned(t) <==> c in Pinned(s) || c == b;
    forall c | c in t.cache ensures BufOk(g, t, c) {
      assert BufOk(g, s, c);
    }
  }

  lemma LogWriteKeepsDisk(g: Geometry, s: State, p: Pid, b: nat)
    requires InvLog(g, s) && InvDisk(g, s) && s.phase.Running? && p in s.ops && b in s.cache && g.IsHome(b)
    requires InvLog(g, DoLogWrite(s, p, b))
    ensures InvDisk(g, DoLogWrite(s, p, b))
    ensures Abs(g, DoLogWrite(s, p, b)) == AbsApply(Abs(g, s), s, LogWrite(p, b))
  {
    assert View(g, DoLogWrite(s, p, b)) == View(g, s)[b := s.cache[b].data];
  }

  lemma LogWriteRefines(g: Geometry, s: State, p: Pid, b: nat)
    requires Inv(g, s) && Enabled(g, s, LogWrite(p, b))
    ensures Refines(g, s, LogWrite(p, b), Apply(g, s, LogWrite(p, b)))
  {
    LogWriteKeepsOps(g, s, p, b);
    LogWriteKeepsLog(g, s, p, b);
    LogWriteKeepsCache(g, s, p, b);
    LogWriteKeepsDisk(g, s, p, b);
  }

  /** The cache half of a step that writes block `b` through its locked buffer. */
  lemma BwriteKeepsCache(g: Geometry, s: State, t: State, b: nat)
    requires |s.disk| == |t.disk| == g.blocks && InvCache(g, s)
    requires t.cache.Keys == s.cache.Keys && t.ops == s.ops == map[]
    requires (forall c :: c in t.lh ==> c in s.lh) && !t.phase.Boot? && (t.phase.Recovering? ==> s.phase.Recovering?)
    requires forall c :: c in Pinned(t) ==> c in Pinned(s)
    requires b in s.cache && b < g.blocks && t.cache[b].valid && t.cache[b].data == Current(t, b)
    requires t.cache[b] == s.cache[b].(data := t.cache[b].data, refcnt := t.cache[b].refcnt)
    requires s.cache[b].refcnt - t.cache[b].refcnt ==
             (if b in Pinned(s) then 1 else 0) - (if b in Pinned(t) then 1 else 0)
    requires forall c :: c in s.cache && c != b ==> t.cache[c] == s.cache[c]
    requires forall c :: c in s.cache && c != b ==> (c in Pinned(t) <==> c in Pinned(s))
    requires forall c :: c in s.cache && c != b && c < g.blocks ==> Current(t, c) == Current(s, c)
    ensures InvCache(g, t)
  {
    forall c | c in t.cache ensures BufOk(g, t, c) {
      assert BufOk(g, s, c);
    }
  }

  lemma CopyToLogKeepsDisk(g: Geometry, s: State)
    requires InvLog(g, s) && InvDisk(g, s) && s.phase.WritingLog? && s.phase.tail < |s.lh|
    requires g.Slot(s.phase.tail) in s.cache && s.lh[s.phase.tail] in s.cache
    requires s.cache[s.lh[s.phase.tail]].data == s.logged[s.lh[s.phase.tail]]
    ensures var t := DoCopyToLog(g, s);
            InvLog(g, t) && InvDisk(g, t) && Abs(g, t) == Abs(g, s)
  {
    var i := s.phase.tail;
    SlotWriteKeepsDurable(g, s.disk, i, s.cache[s.lh[i]].data);
    assert View(g, DoCopyToLog(g, s)) == View(g, s);
  }

  lemma CopyToLogKeepsCache(g: Geometry, s: State)
    requires |s.disk| == g.blocks && InvLog(g, s) && InvCache(g, s) && s.ops == map[]
    requires s.phase.WritingLog? && s.phase.tail < |s.lh| && g.Slot(s.phase.tail) < |s.disk|
    requires g.Slot(s.phase.tail) in s.cache && s.cache[g.Slot(s.phase.tail)].valid
    requires s.lh[s.phase.tail] in s.cache && s.cache[s.lh[s.phase.tail]].valid
    ensures s.cache[s.lh[s.phase.tail]].data == s.logged[s.lh[s.phase.tail]]
    ensures InvCache(g, DoCopyToLog(g, s))
  {
    var i := s.phase.tail;
    assert BufOk(g, s, s.lh[i]);
    assert g.Slot(i) !in s.logged;
    BwriteKeepsCache(g, s, DoCopyToLog(g, s), g.Slot(i));
  }

  lemma CopyToLogRefines(g: Geometry, s: State, p: Pid)
    requires Inv(g, s) && Enabled(g, s, CopyToLog(p))
    ensures Refines(g, s, CopyToLog(p), Apply(g, s, CopyToLog(p)))
  {
    CopyToLogKeepsCache(g, s);
    CopyToLogKeepsDisk(g, s);
  }

  lemma WriteHeadKeepsDisk(g: Geometry, s: State)
    requires InvLog(g, s) && InvDisk(g, s) && s.phase.WritingLog? && s.phase.tail == |s.lh|
    requires g.start in s.cache
    ensures var t := DoWriteHead(g, s);
            InvLog(g, t) && InvDisk(g, t)
  {
    HeadWriteOk(g, s.disk, s.cache[g.start].data, s.lh);
  }

  lemma WriteHeadCommitsAt(g: Geometry, s: State, b: nat)
    requires InvLog(g, s) && DiskOk(g, s.disk) && Header(s.disk[g.start]) == []
    requires forall i :: 0 <= i < |s.lh| ==> s.disk[g.Slot(i)] == s.logged[s.lh[i]]
    requires g.start in s.cache && s.phase.WritingLog? && g.IsHome(b)
    requires DiskOk(g, DoWriteHead(g, s).disk)
    ensures DurableAt(g, DoWriteHead(g, s).disk, b) == if b in s.logged then s.logged[b] else s.disk[b]
  {
    HeadWriteCommits(g, s.disk, s.cache[g.start].data, s.lh, b);
    if b in s.lh { assert s.lh[IndexOf(s.lh, b)] == b; }
  }

  lemma DurableIsView(g: Geometry, d: Disk, s: State)
    requires DiskOk(g, d) && DiskOk(g, s.disk) && !s.phase.Boot?
    requires forall b: nat :: g.IsHome(b) ==> DurableAt(g, d, b) == if b in s.logged then s.logged[b] else s.disk[b]
    ensures Durable(g, d) == View(g, s)
  {
  }

  /** The commit point: the durable content becomes the view, all blocks at once. */
  lemma WriteHeadCommits(g: Geometry, s: State)
    requires InvLog(g, s) && InvDisk(g, s) && s.phase.WritingLog? && s.phase.tail == |s.lh|
    requires g.start in s.cache
    requires DiskOk(g, DoWriteHead(g, s).disk)
    ensures Durable(g, DoWriteHead(g, s).disk) == View(g, s)
  {
    forall b: nat | g.IsHome(b)
      ensures DurableAt(g, DoWriteHead(g, s).disk, b) == if b in s.logged then s.logged[b] else s.disk[b]
    {
      WriteHeadCommitsAt(g, s, b);
    }
    DurableIsView(g, DoWriteHead(g, s).disk, s);
  }

  lemma WriteHeadKeepsView(g: Geometry, s: State)
    requires DiskOk(g, s.disk) && InvLog(g, s) && s.phase.WritingLog? && g.start in s.cache
    requires DiskOk(g, DoWriteHead(g, s).disk)
    ensures View(g, DoWriteHead(g, s)) == View(g, s)
  {
  }

  lemma WriteHeadKeepsCache(g: Geometry, s: State)
    requires |s.disk| == g.blocks && InvCache(g, s) && s.ops == map[]
    requires s.phase.WritingLog? && |s.lh| <= LOGSIZE && forall i :: 0 <= i < |s.lh| ==> s.lh[i] < TWO32
    requires g.start < |s.disk| && g.start in s.cache && s.cache[g.start].valid
    requires g.start !in s.logged && g.start !in s.lh
    ensures InvCache(g, DoWriteHead(g, s))
  {
    assert s.lh[0..] == s.lh;
    BwriteKeepsCache(g, s, DoWriteHead(g, s), g.start);
  }

  lemma WriteHeadKeepsInv(g: Geometry, s: State, p: Pid)
    requires Inv(g, s) && Enabled(g, s, WriteHead(p))
    ensures Inv(g, Apply(g, s, WriteHead(p)))
  {
    WriteHeadKeepsDisk(g, s);
    assert g.IsLog(g.start);
    WriteHeadKeepsCache(g, s);
  }

  lemma WriteHeadMoves(g: Geometry, s: State, p: Pid)
    requires Inv(g, s) && Enabled(g, s, WriteHead(p)) && DiskOk(g, Apply(g, s, WriteHead(p)).disk)
    ensures Abs(g, Apply(g, s, WriteHead(p))) == AbsApply(Abs(g, s), s, WriteHead(p))
  {
    WriteHeadCommits(g, s);
    WriteHeadKeepsView(g, s);
  }

  lemma WriteHeadRefines(g: Geometry, s: State, p: Pid)
    requires Inv(g, s) && Enabled(g, s, WriteHead(p))
    ensures Refines(g, s, WriteHead(p), Apply(g, s, WriteHead(p)))
  {
    WriteHeadKeepsInv(g, s, p);
    WriteHeadMoves(g, s, p);
  }

  lemma InstallOne(g: Geometry, s: State, i: nat, d: Disk)
    requires InvLog(g, s) && DiskOk(g, s.disk) && i < |s.lh| && Installed(g, s, i)
    requires d == s.disk[s.lh[i] := s.disk[g.Slot(i)]]
    ensures forall j :: 0 <= j < |s.lh| ==> d[g.Slot(j)] == s.logged[s.lh[j]]
    ensures forall j :: 0 <= j < i + 1 ==> d[s.lh[j]] == s.logged[s.lh[j]]
  {
  }

  lemma InstallKeepsDisk(g: Geometry, s: State)
    requires InvLog(g, s) && DiskOk(g, s.disk) && (s.phase.Installing? || s.phase.Recovering?)
    requires s.phase.tail < |s.lh| && Installed(g, s, s.phase.tail)
    requires g.Slot(s.phase.tail) in s.cache && s.lh[s.phase.tail] in s.cache
    requires s.cache[s.lh[s.phase.tail]].refcnt > 0
    requires s.cache[g.Slot(s.phase.tail)].data == s.disk[g.Slot(s.phase.tail)]
    ensures var t := DoInstall(g, s);
            InvLog(g, t) && InvDisk(g, t) && Durable(g, t.disk) == Durable(g, s.disk)
  {
    var t := DoInstall(g, s);
    var i := s.phase.tail;
    InstallKeepsDurable(g, s.disk, i);
    assert t.disk == s.disk[s.lh[i] := s.disk[g.Slot(i)]];
    InstallOne(g, s, i, t.disk);
    assert InvLog(g, t);
    assert Installed(g, t, i + 1);
  }

  lemma InstallKeepsView(g: Geometry, s: State)
    requires DiskOk(g, s.disk) && InvLog(g, s) && (s.phase.Installing? || s.phase.Recovering?)
    requires s.phase.tail < |s.lh| && g.Slot(s.phase.tail) in s.cache && s.lh[s.phase.tail] in s.cache
    requires s.cache[s.lh[s.phase.tail]].refcnt > 0
    requires DiskOk(g, DoInstall(g, s).disk)
    ensures View(g, DoInstall(g, s)) == View(g, s)
  {
    assert s.lh[s.phase.tail] in s.logged;
  }

  lemma DistinctTail(s: seq<nat>, i: nat)
    requires Distinct(s) && i < |s|
    ensures s[i] !in s[i + 1..] && s[i..] == [s[i]] + s[i + 1..]
  {
  }

  lemma InstallPins(s: State, t: State)
    requires (s.phase.Installing? || s.phase.Recovering?) && s.phase.tail < |s.lh| && Distinct(s.lh)
    requires t.lh == s.lh && t.phase == if s.phase.Installing? then Installing(s.phase.who, s.phase.tail + 1)
                                        else Recovering(s.phase.who, s.phase.tail + 1)
    ensures s.lh[s.phase.tail] !in Pinned(t)
    ensures s.lh[s.phase.tail] in Pinned(s) <==> s.phase.Installing?
    ensures forall c :: c != s.lh[s.phase.tail] ==> (c in Pinned(t) <==> c in Pinned(s))
  {
    DistinctTail(s.lh, s.phase.tail);
  }

  lemma InstallKeepsCache(g: Geometry, s: State)
    requires |s.disk| == g.blocks && InvCache(g, s) && s.ops == map[]
    requires (s.phase.Installing? || s.phase.Recovering?) && s.phase.tail < |s.lh| && Distinct(s.lh)
    requires g.Slot(s.phase.tail) < g.blocks && g.Slot(s.phase.tail) !in s.logged && !g.IsHome(g.Slot(s.phase.tail))
    requires g.Slot(s.phase.tail) in s.cache && s.cache[g.Slot(s.phase.tail)].valid
    requires s.lh[s.phase.tail] in s.cache && s.cache[s.lh[s.phase.tail]].valid
    requires s.cache[s.lh[s.phase.tail]].refcnt > 0
    requires s.lh[s.phase.tail] in s.logged && s.disk[g.Slot(s.phase.tail)] == s.logged[s.lh[s.phase.tail]]
    ensures s.lh[s.phase.tail] < |s.disk| && InvCache(g, DoInstall(g, s))
  {
    var i := s.phase.tail;
    assert BufOk(g, s, g.Slot(i)) && BufOk(g, s, s.lh[i]);
    var t := DoInstall(g, s);
    InstallPins(s, t);
    BwriteKeepsCache(g, s, t, s.lh[i]);
  }

  lemma InstallKeepsInv(g: Geometry, s: State, p: Pid)
    requires Inv(g, s) && Enabled(g, s, Install(p))
    ensures Inv(g, Apply(g, s, Install(p)))
  {
    assert Installed(g, s, s.phase.tail);
    assert BufOk(g, s, g.Slot(s.phase.tail));
    InstallKeepsCache(g, s);
    InstallKeepsDisk(g, s);
  }

  lemma InstallMoves(g: Geometry, s: State, p: Pid)
    requires Inv(g, s) && Enabled(g, s, Install(p)) && DiskOk(g, Apply(g, s, Install(p)).disk)
    ensures Abs(g, Apply(g, s, Install(p))) == AbsApply(Abs(g, s), s, Install(p))
  {
    assert Installed(g, s, s.phase.tail);
    assert BufOk(g, s, g.Slot(s.phase.tail));
    InstallKeepsDisk(g, s);
    InstallKeepsView(g, s);
  }

  lemma InstallRefines(g: Geometry, s: State, p: Pid)
    requires Inv(g, s) && Enabled(g, s, Install(p))
    ensures Refines(g, s, Install(p), Apply(g, s, Install(p)))
  {
    InstallKeepsInv(g, s, p);
    InstallMoves(g, s, p);
  }

  lemma ClearHeadKeepsDisk(g: Geometry, s: State)
    requires DiskOk(g, s.disk) && InvLog(g, s) && (s.phase.Installing? || s.phase.Recovering?)
    requires Installed(g, s, |s.lh|) && g.start in s.cache
    ensures var t := DoClearHead(g, s);
            InvLog(g, t) && InvDisk(g, t) && Durable(g, t.disk) == Durable(g, s.disk)
            && View(g, t) == Durable(g, t.disk)
  {
    ClearKeepsDurable(g, s.disk, s.cache[g.start].data);
  }

  /** Once everything is installed, what readers see is what the home blocks hold. */
  lemma InstalledView(g: Geometry, s: State)
    requires DiskOk(g, s.disk) && InvLog(g, s) && (s.phase.Installing? || s.phase.Recovering?)
    requires Installed(g, s, |s.lh|)
    ensures forall b :: b in s.logged ==> b < |s.disk| && s.logged[b] == s.disk[b]
    ensures View(g, s) == Homes(g, s.disk) == Durable(g, s.disk)
  {
    forall b | b in s.logged ensures b < |s.disk| && s.logged[b] == s.disk[b] {
      assert s.lh[IndexOf(s.lh, b)] == b;
    }
  }

  lemma ClearHeadKeepsCache(g: Geometry, s: State)
    requires |s.disk| == g.blocks && InvCache(g, s) && s.ops == map[]
    requires (s.phase.Installing? || s.phase.Recovering?) && s.phase.tail == |s.lh|
    requires g.start < g.blocks && g.start in s.cache && s.cache[g.start].valid && g.start !in s.logged
    requires forall b :: b in s.logged ==> b < |s.disk| && s.logged[b] == s.disk[b]
    ensures InvCache(g, DoClearHead(g, s))
  {
    BwriteKeepsCache(g, s, DoClearHead(g, s), g.start);
  }

  lemma ClearHeadKeepsInv(g: Geometry, s: State, p: Pid)
    requires Inv(g, s) && Enabled(g, s, ClearHead(p))
    ensures Inv(g, Apply(g, s, ClearHead(p)))
  {
    ClearHeadKeepsDisk(g, s);
    InstalledView(g, s);
    assert g.IsLog(g.start);
    ClearHeadKeepsCache(g, s);
    assert Unspent(map[]) == 0;
  }

  lemma ClearHeadMoves(g: Geometry, s: State, p: Pid)
    requires Inv(g, s) && Enabled(g, s, ClearHead(p)) && DiskOk(g, Apply(g, s, ClearHead(p)).disk)
    ensures Abs(g, Apply(g, s, ClearHead(p))) == AbsApply(Abs(g, s), s, ClearHead(p))
  {
    ClearHeadKeepsDisk(g, s);
    InstalledView(g, s);
  }

  lemma ClearHeadRefines(g: Geometry, s: State, p: Pid)
    requires Inv(g, s) && Enabled(g, s, ClearHead(p))
    ensures Refines(g, s, ClearHead(p), Apply(g, s, ClearHead(p)))
  {
    ClearHeadKeepsInv(g, s, p);
    ClearHeadMoves(g, s, p);
  }

  lemma FinishCommitRefines(g: Geometry, s: State, p: Pid)
    requires Inv(g, s) && Enabled(g, s, FinishCommit(p))
    ensures Refines(g, s, FinishCommit(p), Apply(g, s, FinishCommit(p)))
  {
    PhaseOnlyRefines(g, s, Apply(g, s, FinishCommit(p)));
    FinishCommitKeepsCache(g, s, p);
    assert Unspent(map[]) == 0;
  }

  lemma FinishCommitKeepsCache(g: Geometry, s: State, p: Pid)
    requires |s.disk| == g.blocks && s.lh == [] && InvCache(g, s) && Enabled(g, s, FinishCommit(p))
    ensures InvCache(g, Apply(g, s, FinishCommit(p)))
  {
    var t := Apply(g, s, FinishCommit(p));
    forall c | c in t.cache ensures BufOk(g, t, c) {
      assert BufOk(g, s, c);
    }
  }

  lemma ReadHeadKeepsDisk(g: Geometry, s: State, p: Pid)
    requires DiskOk(g, s.disk) && Enabled(g, s, ReadHead(p))
    ensures var t := Apply(g, s, ReadHead(p));
            InvLog(g, t) && InvDisk(g, t)
  {
    var t := Apply(g, s, ReadHead(p));
    forall i | 0 <= i < |t.lh| ensures t.disk[g.Slot(i)] == t.logged[t.lh[i]] {
      IndexOfUnique(t.lh, i);
    }
  }

  lemma ReadHeadKeepsView(g: Geometry, s: State, p: Pid)
    requires DiskOk(g, s.disk) && Enabled(g, s, ReadHead(p))
    ensures View(g, Apply(g, s, ReadHead(p))) == View(g, s)
  {
  }

  lemma ReadHeadKeepsCache(g: Geometry, s: State, p: Pid)
    requires |s.disk| == g.blocks && s.lh == [] && s.logged == map[] && InvCache(g, s)
    requires Enabled(g, s, ReadHead(p))
    ensures InvCache(g, Apply(g, s, ReadHead(p)))
  {
    var t := Apply(g, s, ReadHead(p));
    forall c | c in t.cache ensures BufOk(g, t, c) {
      assert BufOk(g, s, c);
    }
  }

  lemma ReadHeadRefines(g: Geometry, s: State, p: Pid)
    requires Inv(g, s) && Enabled(g, s, ReadHead(p))
    ensures Refines(g, s, ReadHead(p), Apply(g, s, ReadHead(p)))
  {
    hide View, Durable, Header, ReadLogged, BufOk, InvDisk, DiskOk;
    BootFacts(g, s);
    ReadHeadKeepsDisk(g, s, p);
    ReadHeadKeepsView(g, s, p);
    ReadHeadKeepsCache(g, s, p);
  }

  lemma BootFacts(g: Geometry, s: State)
    requires Inv(g, s) && s.phase.Boot?
    ensures DiskOk(g, s.disk) && |s.disk| == g.blocks && s.lh == [] && s.logged == map[]
  {
  }

  lemma PowerOnInv(g: Geometry, d: Disk)
    requires DiskOk(g, d)
    ensures Inv(g, PowerOn(d)) && View(g, PowerOn(d)) == Durable(g, d)
  {
  }

  lemma CrashRefines(g: Geometry, s: State)
    requires Inv(g, s)
    ensures Refines(g, s, Crash, Apply(g, s, Crash))
  {
    PowerOnInv(g, s.disk);
  }

  /** Every step of every process, and a crash, keeps the invariant and is either invisible
      or exactly one step of the atomic transactional store. */
  lemma StepRefines(g: Geometry, s: State, step: Step)
    requires Inv(g, s) && Enabled(g, s, step)
    ensures Refines(g, s, step, Apply(g, s, step))
  {
    hide *;
    match step
    case BeginOp(p) => BeginOpRefines(g, s, p);
    case EndOp(p) => EndOpRefines(g, s, p);
    case Bget(p, b, victim) => BgetRefines(g, s, p, b, victim);
    case Lock(p, b) => LockRefines(g, s, p, b);
    case Modify(p, b, data) => ModifyRefines(g, s, p, b, data);
    case LogWrite(p, b) => LogWriteRefines(g, s, p, b);
    case Brelse(p, b) => BrelseRefines(g, s, p, b);
    case Abandon(p, b) => AbandonRefines(g, s, p, b);
    case CopyToLog(p) => CopyToLogRefines(g, s, p);
    case WriteHead(p) => WriteHeadRefines(g, s, p);
    case Install(p) => InstallRefines(g, s, p);
    case ClearHead(p) => ClearHeadRefines(g, s, p);
    case FinishCommit(p) => FinishCommitRefines(g, s, p);
    case ReadHead(p) => ReadHeadRefines(g, s, p);
    case Crash => CrashRefines(g, s);
  }
}
