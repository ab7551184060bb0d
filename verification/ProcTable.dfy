/** kernel/proc.c: fork, exit, wait and the parent pointers. A step is a section of code under
    wait_lock or under one p->lock; steps of different processes interleave freely. */
module ProcTable {
  import opened Base

  type Pid = nat

  datatype PState = UNUSED | USED | SLEEPING | RUNNABLE | RUNNING | ZOMBIE

  const INIT: Pid := 0

  /** `forking` gives the slot that a process in fork is filling; `leaving` the zombies that have
      not switched away yet and still hold their p->lock; `exits` and `reaped` count, per slot,
      how often a process exited there and how often wait freed it. */
  datatype State = State(st: seq<PState>, parent: seq<Option<Pid>>, forking: map<Pid, Pid>, leaving: set<Pid>,
                         exits: seq<nat>, reaped: seq<nat>)

  datatype Step =
    | ForkAlloc(p: Pid, i: Pid)
    | ForkFail(p: Pid)
    | ForkParent(p: Pid)
    | ForkDone(p: Pid)
    | Move(p: Pid, x: PState)
    | Exit(p: Pid)
    | Leave(p: Pid)
    | Reap(p: Pid, i: Pid)

  predicate Alive(x: PState) {
    x == SLEEPING || x == RUNNABLE || x == RUNNING
  }

  predicate ShapeOk(s: State) {
    |s.parent| == |s.st| && |s.exits| == |s.st| && |s.reaped| == |s.st| && 0 < |s.st|
  }

  // ------------------------------------------------------------ the table scans

  /** reparent as a function of the parent pointers. */
  function Reparented(parent: seq<Option<Pid>>, p: Pid): (r: seq<Option<Pid>>)
    ensures |r| == |parent|
    ensures forall i :: 0 <= i < |parent| ==> r[i] == if parent[i] == Some(p) then Some(INIT) else parent[i]
  {
    if parent == [] then []
    else
      var last := parent[|parent| - 1];
      Reparented(parent[..|parent| - 1], p) + [if last == Some(p) then Some(INIT) else last]
  }

  /** reparent's loop over the table. */
  method Reparent(parent: seq<Option<Pid>>, p: Pid) returns (r: seq<Option<Pid>>)
    ensures r == Reparented(parent, p)
    ensures p != INIT ==> forall i :: 0 <= i < |r| ==> r[i] != Some(p)
  {
    r := parent;
    var i := 0;
    while i < |parent|
      invariant i <= |parent| == |r|
      invariant forall j :: 0 <= j < |parent| ==>
                  r[j] == if j < i && parent[j] == Some(p) then Some(INIT) else parent[j]
    {
      if r[i] == Some(p) {
        r := r[i := Some(INIT)];
      }
      i := i + 1;
    }
  }

  /** wait's scan: the first zombie child, and whether there are children at all. */
  method ScanChildren(st: seq<PState>, parent: seq<Option<Pid>>, p: Pid) returns (found: Option<Pid>, havekids: bool)
    requires |st| == |parent|
    ensures found.Some? ==> found.value < |st| && parent[found.value] == Some(p) && st[found.value] == ZOMBIE
    ensures found.Some? ==> forall i :: 0 <= i < found.value ==> !(parent[i] == Some(p) && st[i] == ZOMBIE)
    ensures found.None? ==> forall i :: 0 <= i < |st| ==> !(parent[i] == Some(p) && st[i] == ZOMBIE)
    ensures found.None? ==> (havekids <==> exists i :: 0 <= i < |st| && parent[i] == Some(p))
  {
    havekids := false;
    var i := 0;
    while i < |st|
      invariant i <= |st|
      invariant forall j :: 0 <= j < i ==> !(parent[j] == Some(p) && st[j] == ZOMBIE)
      invariant havekids <==> exists j :: 0 <= j < i && parent[j] == Some(p)
    {
      if parent[i] == Some(p) {
        havekids := true;
        if st[i] == ZOMBIE {
          return Some(i), true;
        }
      }
      i := i + 1;
    }
    found := None;
  }

  // ------------------------------------------------------------ steps

  predicate Enabled(s: State, step: Step)
    requires ShapeOk(s)
  {
    && step.p < |s.st|
    && match step
       case ForkAlloc(p, i) => Alive(s.st[p]) && p !in s.forking && i < |s.st| && s.st[i] == UNUSED
       case ForkFail(p) => p in s.forking && s.forking[p] < |s.st| && s.parent[s.forking[p]] == None
       case ForkParent(p) => p in s.forking && s.forking[p] < |s.st| && s.parent[s.forking[p]] == None
       case ForkDone(p) => p in s.forking && s.forking[p] < |s.st| && s.parent[s.forking[p]] == Some(p)
       case Move(p, x) => Alive(s.st[p]) && Alive(x)
       case Exit(p) => Alive(s.st[p]) && p != INIT && p !in s.forking
       case Leave(p) => p in s.leaving
       case Reap(p, i) => Alive(s.st[p]) && i < |s.st| && s.parent[i] == Some(p) && s.st[i] == ZOMBIE && i !in s.leaving
  }

  function Apply(s: State, step: Step): (t: State)
    requires ShapeOk(s) && Enabled(s, step)
    ensures ShapeOk(t) && |t.st| == |s.st|
  {
    match step
    case ForkAlloc(p, i) => s.(st := s.st[i := USED], forking := s.forking[p := i])
    case ForkFail(p) => s.(st := s.st[s.forking[p] := UNUSED], forking := s.forking - {p})
    case ForkParent(p) => s.(parent := s.parent[s.forking[p] := Some(p)])
    case ForkDone(p) => s.(st := s.st[s.forking[p] := RUNNABLE], forking := s.forking - {p})
    case Move(p, x) => s.(st := s.st[p := x])
    case Exit(p) =>
      s.(st := s.st[p := ZOMBIE], parent := Reparented(s.parent, p), leaving := s.leaving + {p},
        exits := s.exits[p := s.exits[p] + 1])
    case Leave(p) => s.(leaving := s.leaving - {p})
    case Reap(p, i) =>
      s.(st := s.st[i := UNUSED], parent := s.parent[i := None], reaped := s.reaped[i := s.reaped[i] + 1])
  }

  // ------------------------------------------------------------ the invariant

  /** One slot of the table. */
  ghost predicate SlotOk(s: State, i: Pid)
    requires ShapeOk(s) && i < |s.st|
  {
    && (s.parent[i].Some? ==> s.parent[i].value < |s.st| && Alive(s.st[s.parent[i].value]))
    && (s.st[i] == UNUSED ==> s.parent[i].None?)
    && (s.st[i] == ZOMBIE ==> s.parent[i].Some?)
    && (Alive(s.st[i]) && i != INIT ==> s.parent[i].Some?)
    && (i in s.leaving ==> s.st[i] == ZOMBIE)
    && s.exits[i] == s.reaped[i] + (if s.st[i] == ZOMBIE then 1 else 0)
  }

  /** A process in fork is alive and has a slot of its own. */
  ghost predicate ForkOk(s: State)
    requires ShapeOk(s)
  {
    (forall p :: p in s.forking ==> ForkAt(s, p)) && SlotsDiffer(s.forking)
  }

  ghost predicate ForkAt(s: State, p: Pid)
    requires ShapeOk(s) && p in s.forking
  {
    var i := s.forking[p];
    p < |s.st| && Alive(s.st[p]) && i < |s.st| && s.st[i] == USED && (s.parent[i].Some? ==> s.parent[i] == Some(p))
  }

  ghost predicate SlotsDiffer(forking: map<Pid, Pid>) {
    forall p, q :: p in forking && q in forking && forking[p] == forking[q] ==> p == q
  }

  ghost predicate Inv(s: State) {
    && ShapeOk(s) && Alive(s.st[INIT]) && ForkOk(s)
    && (forall i: nat :: i < |s.st| ==> SlotOk(s, i))
  }

  lemma StepSlot(s: State, step: Step, i: Pid)
    requires Inv(s) && Enabled(s, step) && i < |s.st|
    ensures SlotOk(Apply(s, step), i)
  {
    assert SlotOk(s, i);
    if s.parent[i].Some? { assert SlotOk(s, s.parent[i].value); }
  }

  lemma StepFork(s: State, step: Step)
    requires ShapeOk(s) && ForkOk(s) && Enabled(s, step) && (step.ForkAlloc? ==> s.parent[step.i].None?)
    ensures ForkOk(Apply(s, step))
  {
    var t := Apply(s, step);
    forall p | p in t.forking ensures ForkAt(t, p) {
      if !(step.ForkAlloc? && step.p == p) { assert ForkAt(s, p); }
      if step.p in s.forking { assert ForkAt(s, step.p); }
    }
    if step.ForkAlloc? { NotYetForking(s, step.i); }
  }

  lemma NotYetForking(s: State, i: Pid)
    requires ShapeOk(s) && ForkOk(s) && i < |s.st| && s.st[i] == UNUSED
    ensures forall p :: p in s.forking ==> s.forking[p] != i
  {
    forall p | p in s.forking ensures s.forking[p] != i {
      assert ForkAt(s, p);
    }
  }

  lemma UnusedIsOrphan(s: State, i: Pid)
    requires Inv(s) && i < |s.st| && s.st[i] == UNUSED
    ensures s.parent[i].None?
  {
    assert SlotOk(s, i);
  }

  lemma StepInv(s: State, step: Step)
    requires Inv(s) && Enabled(s, step)
    ensures Inv(Apply(s, step))
  {
    hide SlotOk, ForkOk;
    if step.ForkAlloc? { UnusedIsOrphan(s, step.i); }
    StepFork(s, step);
    forall i: nat | i < |s.st| ensures SlotOk(Apply(s, step), i) {
      StepSlot(s, step, i);
    }
    InitLives(s, step);
  }

  lemma InitLives(s: State, step: Step)
    requires Inv(s) && Enabled(s, step)
    ensures Alive(Apply(s, step).st[INIT])
  {
    hide SlotOk;
  }

  // ------------------------------------------------------------ runs

  predicate CanRun(s: State, steps: seq<Step>)
    requires ShapeOk(s)
    decreases |steps|
  {
    steps == [] || (Enabled(s, steps[0]) && CanRun(Apply(s, steps[0]), steps[1..]))
  }

  function RunTo(s: State, steps: seq<Step>): (t: State)
    requires ShapeOk(s) && CanRun(s, steps)
    ensures ShapeOk(t) && |t.st| == |s.st|
    decreases |steps|
  {
    if steps == [] then s else RunTo(Apply(s, steps[0]), steps[1..])
  }

  /** userinit: slot 0 holds the first process and the other slots are unused. */
  ghost predicate Init(s: State) {
    && ShapeOk(s) && s.forking == map[] && s.leaving == {} && s.st[INIT] == RUNNABLE && s.parent[INIT] == None
    && (forall i :: 0 <= i < |s.st| ==> s.exits[i] == 0 && s.reaped[i] == 0)
    && (forall i :: 0 < i < |s.st| ==> s.st[i] == UNUSED && s.parent[i] == None)
  }

  lemma {:induction false} RunInv(s: State, steps: seq<Step>)
    requires ShapeOk(s) && Inv(s) && CanRun(s, steps)
    ensures Inv(RunTo(s, steps))
    decreases |steps|
  {
    hide Inv, Enabled, Apply;
    if steps != [] {
      StepInv(s, steps[0]);
      RunInv(Apply(s, steps[0]), steps[1..]);
    }
  }

  /** In every run: parents are alive, zombies have a parent to wait for them, and a slot has
      been freed once for each exit in it, or once less while its zombie waits. */
  lemma TableInvariant(s: State, steps: seq<Step>, i: Pid)
    requires Init(s) && CanRun(s, steps) && i < |s.st|
    ensures var t := RunTo(s, steps);
            && (t.parent[i].Some? ==>
                 t.parent[i].value < |t.st| && t.st[t.parent[i].value] != UNUSED && t.st[t.parent[i].value] != ZOMBIE)
            && (t.st[i] == ZOMBIE ==> t.parent[i].Some? && Alive(t.st[t.parent[i].value]))
            && t.reaped[i] <= t.exits[i] <= t.reaped[i] + 1
            && (t.exits[i] == t.reaped[i] + 1 <==> t.st[i] == ZOMBIE)
  {
    hide RunTo, CanRun;
    InitInv(s);
    RunInv(s, steps);
    assert SlotOk(RunTo(s, steps), i);
  }

  lemma InitInv(s: State)
    requires Init(s)
    ensures Inv(s)
  {
  }

  /** Once a process has exited nobody points to it, and its parent sees a zombie in wait. */
  lemma ExitedHasNoChildren(s: State, steps: seq<Step>, i: Pid, p: Pid)
    requires Init(s) && CanRun(s, steps) && i < |s.st| && p < |s.st| && RunTo(s, steps).st[p] == ZOMBIE
    ensures RunTo(s, steps).parent[i] != Some(p)
  {
    TableInvariant(s, steps, i);
  }
}
