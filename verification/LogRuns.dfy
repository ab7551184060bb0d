/** What holds in every run of the logged buffer cache: whole-run consequences of the
    step-by-step refinement in LogMachine. */
module LogRuns {
  import opened Blocks
  import opened LogFormat
  import opened LogMachine

  predicate CanRun(g: Geometry, s: State, steps: seq<Step>)
    decreases |steps|
  {
    steps == [] || (Enabled(g, s, steps[0]) && CanRun(g, Apply(g, s, steps[0]), steps[1..]))
  }

  function RunTo(g: Geometry, s: State, steps: seq<Step>): State
    requires CanRun(g, s, steps)
    decreases |steps|
  {
    if steps == [] then s else RunTo(g, Apply(g, s, steps[0]), steps[1..])
  }

  /** The steps of a run that the transactional store can see. */
  datatype Event = Write(b: nat, data: Block) | Commit | PowerLoss

  function Events(g: Geometry, s: State, steps: seq<Step>): seq<Event>
    requires CanRun(g, s, steps)
    decreases |steps|
  {
    if steps == [] then []
    else
      (match steps[0]
       case LogWrite(p, b) => [Write(b, s.cache[b].data)]
       case Abandon(p, b) => if b in s.lh then [Write(b, s.cache[b].data)] else []
       case WriteHead(p) => [Commit]
       case Crash => [PowerLoss]
       case _ => [])
      + Events(g, Apply(g, s, steps[0]), steps[1..])
  }

  /** The atomic transactional store, on its own: a write is seen at once, a commit makes all
      writes durable together, a power loss undoes every write since the last commit. */
  function StoreAfter(a: Store, events: seq<Event>): Store
    decreases |events|
  {
    if events == [] then a
    else
      match events[0]
      case Write(b, data) => StoreAfter(a.(view := a.view[b := data]), events[1..])
      case Commit => StoreAfter(a.(durable := a.view), events[1..])
      case PowerLoss => StoreAfter(a.(view := a.durable), events[1..])
  }

  /** The part of a run that has been committed: everything up to its last commit. */
  function Committed(events: seq<Event>): seq<Event>
    decreases |events|
  {
    if events == [] then []
    else if events[|events| - 1].Commit? then events
    else Committed(events[..|events| - 1])
  }

  ghost predicate NoPowerLoss(events: seq<Event>) {
    forall i :: 0 <= i < |events| ==> !events[i].PowerLoss?
  }

  lemma {:induction false} StoreTwice(a: Store, x: seq<Event>, y: seq<Event>)
    ensures StoreAfter(a, x + y) == StoreAfter(StoreAfter(a, x), y)
    decreases |x|
  {
    if x == [] {
      assert x + y == y;
    } else {
      assert (x + y)[1..] == x[1..] + y;
      match x[0]
      case Write(b, data) => StoreTwice(a.(view := a.view[b := data]), x[1..], y);
      case Commit => StoreTwice(a.(durable := a.view), x[1..], y);
      case PowerLoss => StoreTwice(a.(view := a.durable), x[1..], y);
    }
  }

  /** What is durable is what readers saw at the last commit. */
  lemma {:induction false} DurableIsCommitted(a: Store, events: seq<Event>)
    requires NoPowerLoss(events)
    ensures NoPowerLoss(Committed(events))
    ensures StoreAfter(a, events).durable ==
            if Committed(events) == [] then a.durable else StoreAfter(a, Committed(events)).view
    decreases |events|
  {
    if events != [] {
      var init, last := events[..|events| - 1], events[|events| - 1];
      assert events == init + [last] && !last.PowerLoss?;
      StoreTwice(a, init, [last]);
      assert [last][1..] == [];
      DurableIsCommitted(a, init);
    }
  }

  /** Main theorem: whatever the interleaving and wherever power is lost, a run that starts
      in a good state moves the disk, the cache and the log as its visible events move the
      transactional store. */
  lemma {:induction false} RunRefinesStore(g: Geometry, s: State, steps: seq<Step>)
    requires Inv(g, s) && CanRun(g, s, steps)
    ensures Inv(g, RunTo(g, s, steps))
    ensures Abs(g, RunTo(g, s, steps)) == StoreAfter(Abs(g, s), Events(g, s, steps))
    decreases |steps|
  {
    if steps != [] {
      var t := Apply(g, s, steps[0]);
      StepRefines(g, s, steps[0]);
      RunRefinesStore(g, t, steps[1..]);
      EventStep(g, s, steps);
    }
  }

  lemma EventStep(g: Geometry, s: State, steps: seq<Step>)
    requires steps != [] && CanRun(g, s, steps) && DiskOk(g, s.disk)
    ensures var rest := Events(g, Apply(g, s, steps[0]), steps[1..]);
            StoreAfter(Abs(g, s), Events(g, s, steps)) == StoreAfter(AbsApply(Abs(g, s), s, steps[0]), rest)
  {
    var rest := Events(g, Apply(g, s, steps[0]), steps[1..]);
    var all := Events(g, s, steps);
    match steps[0]
    case LogWrite(p, b) => assert all == [Write(b, s.cache[b].data)] + rest; assert all[1..] == rest;
    case Abandon(p, b) =>
      if b in s.lh { assert all == [Write(b, s.cache[b].data)] + rest; assert all[1..] == rest; }
      else { assert all == rest; }
    case WriteHead(p) => assert all == [Commit] + rest; assert all[1..] == rest;
    case Crash => assert all == [PowerLoss] + rest; assert all[1..] == rest;
    case _ => assert all == rest;
  }

  /** A state that some run reaches from power-on with a good disk. */
  ghost predicate Reachable(g: Geometry, s: State) {
    exists d, steps :: DiskOk(g, d) && CanRun(g, PowerOn(d), steps) && RunTo(g, PowerOn(d), steps) == s
  }

  lemma ReachableInv(g: Geometry, s: State)
    requires Reachable(g, s)
    ensures Inv(g, s)
  {
    var d, steps :| DiskOk(g, d) && CanRun(g, PowerOn(d), steps) && RunTo(g, PowerOn(d), steps) == s;
    PowerOnInv(g, d);
    RunRefinesStore(g, PowerOn(d), steps);
  }

  lemma TailMembers(s: seq<nat>, t: nat)
    requires t <= |s|
    ensures forall i :: t <= i < |s| ==> s[i] in s[t..]
  {
    forall i | t <= i < |s| ensures s[i] in s[t..] { assert s[t..][i - t] == s[i]; }
  }

  /** Coherence: a process that holds a block it has not changed sees the last logged content,
      or the disk content if the block is not part of the transaction. */
  lemma ReadersSeeView(g: Geometry, s: State, p: Pid, b: nat)
    requires Reachable(g, s) && Holds(s, p, b) && !s.cache[b].dirty && g.IsHome(b)
    requires !s.phase.Boot? && !s.phase.Recovering?
    ensures DiskOk(g, s.disk) && s.cache[b].data == View(g, s)[b]
    ensures b in s.lh ==> s.cache[b].refcnt >= 2 || (s.phase.Installing? && s.disk[b] == View(g, s)[b])
  {
    ReachableInv(g, s);
    assert BufOk(g, s, b);
    if b in s.lh && s.phase.Installing? {
      TailMembers(s.lh, s.phase.tail);
      assert s.lh[IndexOf(s.lh, b)] == b;
    }
  }

  /** bget recycles a buffer only when its content is already on the disk, or is what a change that
      was never logged has left of it. */
  lemma RecycledBuffersAreClean(g: Geometry, s: State, v: nat)
    requires Reachable(g, s) && v in s.cache && s.cache[v].refcnt == 0 && s.cache[v].valid
    ensures v < |s.disk| && (s.cache[v].data == s.disk[v] || (s.cache[v].dirty && v !in s.lh))
    ensures s.cache[v].holder.None? && v !in Pinned(s)
  {
    ReachableInv(g, s);
    assert BufOk(g, s, v);
    if v in s.logged && s.phase.Installing? {
      TailMembers(s.lh, s.phase.tail);
      assert s.lh[IndexOf(s.lh, v)] == v;
    }
  }

  // ---------------------------------------------------------------- crash atomicity

  ghost predicate NoBegin(steps: seq<Step>) {
    forall i :: 0 <= i < |steps| ==> !steps[i].BeginOp?
  }

  lemma {:induction false} NothingVisibleWithoutOps(g: Geometry, s: State, steps: seq<Step>)
    requires Inv(g, s) && CanRun(g, s, steps) && NoBegin(steps)
    requires s.phase.Boot? || s.phase.Recovering? || (s.phase.Running? && s.ops == map[])
    requires s.phase.Boot? || s.phase.Recovering? || s.lh == []
    ensures Inv(g, RunTo(g, s, steps))
    ensures Durable(g, RunTo(g, s, steps).disk) == Durable(g, s.disk)
    ensures RunTo(g, s, steps).phase.Running? ==> RunTo(g, s, steps).lh == []
    decreases |steps|
  {
    hide Apply, Enabled, Inv, Durable, DiskOk;
    GoodDisk(g, s);
    if steps != [] {
      StepFacts(g, s, steps[0]);
      assert !steps[0].BeginOp?;
      StepWithoutOps(g, s, steps[0]);
      NothingVisibleWithoutOps(g, Apply(g, s, steps[0]), steps[1..]);
    }
  }

  lemma GoodDisk(g: Geometry, s: State)
    requires Inv(g, s)
    ensures DiskOk(g, s.disk)
  {
  }

  lemma OpenIsRunning(g: Geometry, s: State)
    requires Inv(g, s)
    ensures !s.phase.Running? ==> s.ops == map[]
  {
  }

  /** Without an operation no step but beginning one leads out of boot, recovery and the quiet state. */
  lemma StepWithoutOps(g: Geometry, s: State, step: Step)
    requires Inv(g, s) && Enabled(g, s, step) && !step.BeginOp?
    requires s.phase.Boot? || s.phase.Recovering? || (s.phase.Running? && s.ops == map[] && s.lh == [])
    ensures !step.WriteHead?
    ensures var t := Apply(g, s, step);
            t.phase.Boot? || t.phase.Recovering? || (t.phase.Running? && t.ops == map[] && t.lh == [])
  {
    hide Installed, DiskOk, BgetFinds, Header, ReadLogged, BufOk;
  }

  /** Only writing the header changes what is durable, and only an operation what is seen. */
  lemma StepFacts(g: Geometry, s: State, step: Step)
    requires Inv(g, s) && Enabled(g, s, step)
    ensures var t := Apply(g, s, step);
            && Inv(g, t) && DiskOk(g, s.disk) && DiskOk(g, t.disk)
            && (!step.WriteHead? ==> Durable(g, t.disk) == Durable(g, s.disk))
            && (s.ops == map[] && !step.Crash? && !step.WriteHead? ==> View(g, t) == View(g, s))
  {
    hide Apply, Durable, View, DiskOk, Inv;
    GoodDisk(g, s);
    StepRefines(g, s, step);
    GoodDisk(g, Apply(g, s, step));
    if s.ops == map[] { NoOpsNoWrite(g, s, step); }
  }

  lemma NoOpsNoWrite(g: Geometry, s: State, step: Step)
    requires Inv(g, s) && Enabled(g, s, step) && s.ops == map[]
    ensures !step.LogWrite? && (step.Abandon? ==> step.b !in s.lh)
  {
    hide Installed, BgetFinds, HeaderOk, Header;
    if step.Abandon? { assert BufOk(g, s, step.b); }
  }

  /** Crash atomicity: lose power in any reachable state, then let any number of recoveries be
      cut short by further power losses; once one recovery completes, the home blocks hold
      exactly the durable content. That is everything before the current transaction as long
      as its header is not written, and all of it from the header write on. */
  lemma CrashAtomicity(g: Geometry, s: State, steps: seq<Step>)
    requires Reachable(g, s)
    requires CanRun(g, PowerOn(s.disk), steps) && NoBegin(steps)
    requires RunTo(g, PowerOn(s.disk), steps).phase.Running?
    ensures DiskOk(g, s.disk)
    ensures var t := RunTo(g, PowerOn(s.disk), steps);
            && |t.disk| == g.blocks && Homes(g, t.disk) == Durable(g, s.disk)
            && (s.phase.Running? || s.phase.WritingLog? ==> Homes(g, t.disk) == Homes(g, s.disk))
            && (s.phase.Installing? || s.phase.Cleared? ==> Homes(g, t.disk) == View(g, s))
  {
    ReachableInv(g, s);
    PowerOnInv(g, s.disk);
    NothingVisibleWithoutOps(g, PowerOn(s.disk), steps);
    EmptyHeaderDurable(g, RunTo(g, PowerOn(s.disk), steps).disk);
    DurableByPhase(g, s);
  }

  lemma DurableByPhase(g: Geometry, s: State)
    requires Inv(g, s)
    ensures s.phase.Running? || s.phase.WritingLog? ==> Durable(g, s.disk) == Homes(g, s.disk)
    ensures s.phase.Installing? || s.phase.Cleared? ==> Durable(g, s.disk) == View(g, s)
  {
    if s.phase.Running? || s.phase.WritingLog? {
      EmptyHeaderDurable(g, s.disk);
    } else if s.phase.Cleared? {
      EmptyHeaderDurable(g, s.disk);
    } else if s.phase.Installing? {
      forall b: nat | g.IsHome(b)
        ensures DurableAt(g, s.disk, b) == if b in s.logged then s.logged[b] else s.disk[b]
      {
        if b in s.lh { assert s.lh[IndexOf(s.lh, b)] == b; }
      }
      DurableIsView(g, s.disk, s);
    }
  }

  ghost predicate InOneTransaction(steps: seq<Step>) {
    forall i :: 0 <= i < |steps| ==> !steps[i].Crash? && !steps[i].ClearHead?
  }

  ghost predicate HeaderWritten(steps: seq<Step>) {
    exists i :: 0 <= i < |steps| && steps[i].WriteHead?
  }

  lemma StepInstalling(g: Geometry, s: State, step: Step)
    requires Inv(g, s) && Enabled(g, s, step) && s.phase.Installing? && !step.Crash? && !step.ClearHead?
    ensures var t := Apply(g, s, step);
            Inv(g, t) && t.phase.Installing? && View(g, t) == View(g, s)
  {
    hide Inv, DiskOk, View, Durable, Header, ReadLogged, BgetFinds;
    OpenIsRunning(g, s);
    StepFacts(g, s, step);
    OpenIsRunning(g, Apply(g, s, step));
  }

  lemma {:induction false} StaysInstalling(g: Geometry, s: State, steps: seq<Step>)
    requires Inv(g, s) && CanRun(g, s, steps) && InOneTransaction(steps) && s.phase.Installing?
    ensures Inv(g, RunTo(g, s, steps)) && RunTo(g, s, steps).phase.Installing?
    ensures View(g, RunTo(g, s, steps)) == View(g, s)
    decreases |steps|
  {
    hide Inv, Enabled, Apply, View;
    if steps != [] {
      assert !steps[0].Crash? && !steps[0].ClearHead?;
      StepInstalling(g, s, steps[0]);
      StaysInstalling(g, Apply(g, s, steps[0]), steps[1..]);
    }
  }

  lemma HeaderWrittenTail(steps: seq<Step>)
    requires steps != [] && !steps[0].WriteHead?
    ensures HeaderWritten(steps) <==> HeaderWritten(steps[1..])
  {
    if HeaderWritten(steps) {
      var i :| 0 <= i < |steps| && steps[i].WriteHead?;
      assert steps[1..][i - 1] == steps[i];
    }
  }

  lemma StepBeforeHeader(g: Geometry, s: State, step: Step)
    requires Inv(g, s) && Enabled(g, s, step) && !step.Crash? && !step.ClearHead? && !step.WriteHead?
    requires s.phase.Running? || s.phase.WritingLog? || s.phase.Cleared?
    ensures var t := Apply(g, s, step);
            Inv(g, t) && Durable(g, t.disk) == Durable(g, s.disk)
            && (t.phase.Running? || t.phase.WritingLog? || t.phase.Cleared?)
  {
    hide Inv, DiskOk, Durable, Header, ReadLogged, BgetFinds;
    StepFacts(g, s, step);
  }

  lemma StepHeader(g: Geometry, s: State, step: Step)
    requires Inv(g, s) && Enabled(g, s, step) && step.WriteHead?
    requires s.phase.Running? || s.phase.WritingLog? || s.phase.Cleared?
    ensures Inv(g, Apply(g, s, step)) && Apply(g, s, step).phase.Installing?
  {
    StepRefines(g, s, step);
  }

  /** Within one transaction the durable content stays what it was until the first write_head;
      from then on it is everything the transaction logged, and nothing can be added any more. */
  lemma {:induction false} BeforeOrAfter(g: Geometry, s: State, steps: seq<Step>)
    requires Inv(g, s) && CanRun(g, s, steps) && InOneTransaction(steps)
    requires s.phase.Running? || s.phase.WritingLog? || s.phase.Cleared?
    ensures Inv(g, RunTo(g, s, steps))
    ensures HeaderWritten(steps) ==> Durable(g, RunTo(g, s, steps).disk) == View(g, RunTo(g, s, steps))
    ensures !HeaderWritten(steps) ==> Durable(g, RunTo(g, s, steps).disk) == Durable(g, s.disk)
    decreases |steps|
  {
    hide Inv, Enabled, Apply, Durable, View;
    if steps != [] {
      var t := Apply(g, s, steps[0]);
      assert !steps[0].Crash? && !steps[0].ClearHead?;
      if steps[0].WriteHead? {
        StepHeader(g, s, steps[0]);
        StaysInstalling(g, t, steps[1..]);
        DurableByPhase(g, RunTo(g, s, steps));
      } else {
        StepBeforeHeader(g, s, steps[0]);
        HeaderWrittenTail(steps);
        BeforeOrAfter(g, t, steps[1..]);
      }
    }
  }

  // ---------------------------------------------------------------- operations never ended

  /** Neither the end of p's operation nor a power loss. */
  ghost predicate KeepsOpen(steps: seq<Step>, p: Pid) {
    forall i :: 0 <= i < |steps| ==> steps[i] != EndOp(p) && !steps[i].Crash?
  }

  lemma StepKeepsOpen(g: Geometry, s: State, step: Step, p: Pid)
    requires Inv(g, s) && p in s.ops && Enabled(g, s, step) && step != EndOp(p) && !step.Crash?
    ensures var t := Apply(g, s, step);
            && Inv(g, t) && p in t.ops && t.phase.Running? && !step.WriteHead?
            && DiskOk(g, s.disk) && DiskOk(g, t.disk) && Durable(g, t.disk) == Durable(g, s.disk)
  {
    hide Inv, DiskOk, Durable, Header, ReadLogged, BgetFinds;
    OpenIsRunning(g, s);
    StepFacts(g, s, step);
    OpenIsRunning(g, Apply(g, s, step));
  }

  /** As long as one operation is not ended, no commit begins, whatever the others do, and nothing
      they write becomes durable: a system call that returns without end_op stops the log for good. */
  lemma {:induction false} NeverEnded(g: Geometry, s: State, steps: seq<Step>, p: Pid)
    requires Inv(g, s) && p in s.ops && CanRun(g, s, steps) && KeepsOpen(steps, p)
    ensures Inv(g, RunTo(g, s, steps)) && p in RunTo(g, s, steps).ops && RunTo(g, s, steps).phase.Running?
    ensures DiskOk(g, s.disk) && DiskOk(g, RunTo(g, s, steps).disk)
    ensures !HeaderWritten(steps) && Durable(g, RunTo(g, s, steps).disk) == Durable(g, s.disk)
    decreases |steps|
  {
    hide Enabled, Apply, Durable;
    if steps != [] {
      assert steps[0] != EndOp(p) && !steps[0].Crash?;
      StepKeepsOpen(g, s, steps[0], p);
      NeverEnded(g, Apply(g, s, steps[0]), steps[1..], p);
      HeaderWrittenTail(steps);
    }
  }

  // ---------------------------------------------------------------- log reservation

  /** While a commit runs no operation is outstanding, every log write stays inside the log
      area, and the header has no duplicates. */
  lemma CommitIsAlone(g: Geometry, s: State)
    requires Reachable(g, s)
    ensures !s.phase.Running? ==> s.outstanding == 0 && s.ops == map[]
    ensures forall i :: 0 <= i < |s.lh| ==> g.IsLog(g.Slot(i)) && g.IsHome(s.lh[i])
    ensures forall i, j :: 0 <= i < j < |s.lh| ==> s.lh[i] != s.lh[j]
  {
    ReachableInv(g, s);
  }

  /** Reservation: the log holds what is logged plus all that outstanding operations may still
      log, so an operation with allowance left never meets the LOGSIZE limit. */
  lemma ReservationHolds(g: Geometry, s: State, p: Pid)
    requires Reachable(g, s) && p in s.ops
    ensures |s.lh| + Unspent(s.ops) <= LOGSIZE
    ensures |s.ops[p]| < MAXOPBLOCKS ==> |s.lh| < LOGSIZE
  {
    ReachableInv(g, s);
    UnspentRemove(s.ops, p);
    UnspentBounds(Without(s.ops, p));
  }
}
