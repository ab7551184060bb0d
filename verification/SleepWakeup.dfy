/** kernel/proc.c: sleep and wakeup, the scheduler, and processes that are made, exit and are
    reaped, with the locks they take, one step at a time. Any two processes may interleave
    between any two steps, and slots of the process table are used again. */
module SleepWakeup {
  type Pid = nat
  type Cpu = nat
  type Lock = nat
  type Chan = nat

  datatype RunState = UNUSED | USED | SLEEPING | RUNNABLE | RUNNING | ZOMBIE

  /** Where a process goes on after a yield: in other code, in sleep before it takes its lock back, or
      in fork between its two holds of the lock of slot i. */
  datatype Back = ToFree | ToSleep(lock: Lock) | ToFork(slot: nat)

  /** Where a process stands in the kernel. `l` is the lock passed to sleep, or held around
      wakeup. */
  datatype Pc =
    | Empty                                   // nobody runs in this slot
    | Free                                    // running other code
    | Ready(to: Back)                         // off the CPU after yield, or never run yet
    | SleepWant(c: Chan, l: Lock)             // in sleep, about to acquire p->lock
    | SleepBoth(c: Chan, l: Lock)             // holds p->lock and lk
    | SleepOne(c: Chan, l: Lock)              // has released lk
    | SleepSet(c: Chan, l: Lock)              // chan and SLEEPING stored, about to switch
    | Asleep(c: Chan, l: Lock)                // switched out
    | AwakeSet(l: Lock)                       // switched in, holds p->lock
    | SleepBack(l: Lock)                      // about to acquire lk again
    | Waking(c: Chan, l: Lock, i: nat)        // in wakeup, slot i comes next
    | WakingHold(c: Chan, l: Lock, i: nat)    // in wakeup, holds the lock of slot i
    | YieldSet(to: Back)                      // in yield, RUNNABLE stored, holds p->lock
    | YieldBack(to: Back)                     // back from yield or in forkret, holds p->lock
    | ForkHold(i: nat)                        // in fork, holds the lock of slot i since allocproc
    | ForkMid(i: nat)                         // in fork, has released the lock of slot i
    | ForkLast(i: nat)                        // in fork, holds the lock of slot i again
    | ExitSet(l: Lock)                        // in exit, ZOMBIE stored, holds p->lock and wait_lock
    | ExitOne                                 // in exit, has released wait_lock, about to switch
    | Reaping(i: nat)                         // in wait, holds the lock of slot i

  /** `plock[p]` says that p->lock is held; `locks` gives the holders of other locks; `cpus`
      gives the process each busy CPU runs (c->proc). */
  datatype State = State(state: seq<RunState>, chan: seq<Chan>, plock: seq<bool>, pc: seq<Pc>,
                         locks: map<Lock, Pid>, cpus: map<Cpu, Pid>)

  datatype Step =
    | Acquire(p: Pid, al: Lock)
    | Release(p: Pid, al: Lock)
    | CallSleep(p: Pid, c: Chan, al: Lock)
    | SleepLock(p: Pid)
    | SleepRelease(p: Pid)
    | SleepMark(p: Pid)
    | SwitchOut(p: Pid)
    | Schedule(k: Cpu, p: Pid)
    | AwakeDone(p: Pid)
    | SleepRelock(p: Pid)
    | CallWakeup(p: Pid, c: Chan, al: Lock)
    | WakeSkip(p: Pid)
    | WakeLock(p: Pid)
    | WakeOne(p: Pid)
    | WakeDone(p: Pid)
    | YieldLock(p: Pid)
    | YieldDone(p: Pid)
    | Kill(p: Pid, q: Pid)
    | AllocLock(p: Pid, q: Pid)
    | ForkFail(p: Pid)
    | ForkRelease(p: Pid)
    | ForkRelock(p: Pid)
    | ForkDone(p: Pid)
    | ExitMark(p: Pid, al: Lock)
    | ExitRelease(p: Pid)
    | ReapLock(p: Pid, q: Pid)
    | ReapDone(p: Pid)

  /** Steps of processes that are made, exit or are reaped. */
  predicate IsBirthOrDeath(step: Step) {
    || step.AllocLock? || step.ForkFail? || step.ForkRelease? || step.ForkRelock? || step.ForkDone?
    || step.ExitMark? || step.ExitRelease? || step.ReapLock? || step.ReapDone?
  }

  predicate ShapeOk(s: State) {
    |s.chan| == |s.state| && |s.plock| == |s.state| && |s.pc| == |s.state|
  }

  /** On a CPU. */
  predicate Running(pc: Pc) {
    !pc.Ready? && !pc.Asleep? && !pc.Empty?
  }

  /** Holding one's own p->lock. */
  predicate OwnHold(pc: Pc) {
    || pc.SleepBoth? || pc.SleepOne? || pc.SleepSet? || pc.AwakeSet? || pc.YieldSet? || pc.YieldBack?
    || pc.ExitSet? || pc.ExitOne?
  }

  /** Holding the lock of slot p, one's own or not. */
  predicate Grips(pc: Pc, p: Pid) {
    (pc.WakingHold? || pc.ForkHold? || pc.ForkLast? || pc.Reaping?) && pc.i == p
  }

  /** Making a process in slot p. */
  predicate Forks(pc: Pc, p: Pid) {
    || ((pc.ForkHold? || pc.ForkMid? || pc.ForkLast?) && pc.i == p)
    || ((pc.Ready? || pc.YieldSet? || pc.YieldBack?) && pc.to == ToFork(p))
  }

  /** Where the timer may find a process with interrupts on. */
  predicate CanYield(pc: Pc) {
    pc.Free? || pc.SleepBack? || pc.ForkMid?
  }

  function BackOf(pc: Pc): Back {
    if pc.SleepBack? then ToSleep(pc.l) else if pc.ForkMid? then ToFork(pc.i) else ToFree
  }

  function GoOn(to: Back): Pc {
    match to
    case ToFree => Free
    case ToSleep(l) => SleepBack(l)
    case ToFork(i) => ForkMid(i)
  }

  predicate HoldsNone(s: State, p: Pid) {
    forall l :: l in s.locks ==> s.locks[l] != p
  }

  predicate HoldsOnly(s: State, p: Pid, l: Lock) {
    l in s.locks && s.locks[l] == p && forall m :: m in s.locks && m != l ==> s.locks[m] != p
  }

  predicate Enabled(s: State, step: Step)
    requires ShapeOk(s)
  {
    var n := |s.state|;
    && step.p < n
    && match step
       case Acquire(p, l) => s.pc[p].Free? && l !in s.locks
       case Release(p, l) => s.pc[p].Free? && l in s.locks && s.locks[l] == p
       case CallSleep(p, c, l) => s.pc[p].Free? && HoldsOnly(s, p, l)
       case SleepLock(p) => s.pc[p].SleepWant? && !s.plock[p]
       case SleepRelease(p) => s.pc[p].SleepBoth?
       case SleepMark(p) => s.pc[p].SleepOne?
       case SwitchOut(p) => s.pc[p].SleepSet? || s.pc[p].YieldSet? || s.pc[p].ExitOne?
       case Schedule(k, p) => k !in s.cpus && !s.plock[p] && s.state[p] == RUNNABLE
       case AwakeDone(p) => s.pc[p].AwakeSet?
       case SleepRelock(p) => s.pc[p].SleepBack? && s.pc[p].l !in s.locks
       case CallWakeup(p, c, l) => s.pc[p].Free? && l in s.locks && s.locks[l] == p
       case WakeSkip(p) => s.pc[p].Waking? && s.pc[p].i == p
       case WakeLock(p) => s.pc[p].Waking? && s.pc[p].i < n && s.pc[p].i != p && !s.plock[s.pc[p].i]
       case WakeOne(p) => s.pc[p].WakingHold? && s.pc[p].i < n
       case WakeDone(p) => s.pc[p].Waking? && s.pc[p].i == n
       case YieldLock(p) => CanYield(s.pc[p]) && HoldsNone(s, p) && !s.plock[p]
       case YieldDone(p) => s.pc[p].YieldBack?
       case Kill(p, q) => s.pc[p].Free? && q < n && q != p && !s.plock[q]
       case AllocLock(p, q) => s.pc[p].Free? && q < n && !s.plock[q] && s.state[q] == UNUSED
       case ForkFail(p) => s.pc[p].ForkHold? && s.pc[p].i < n
       case ForkRelease(p) => s.pc[p].ForkHold? && s.pc[p].i < n
       case ForkRelock(p) => s.pc[p].ForkMid? && s.pc[p].i < n && !s.plock[s.pc[p].i]
       case ForkDone(p) => s.pc[p].ForkLast? && s.pc[p].i < n
       case ExitMark(p, l) => s.pc[p].Free? && HoldsOnly(s, p, l) && !s.plock[p]
       case ExitRelease(p) => s.pc[p].ExitSet?
       case ReapLock(p, q) => s.pc[p].Free? && q < n && q != p && !s.plock[q]
       case ReapDone(p) => s.pc[p].Reaping? && s.pc[p].i < n
  }

  function Wake(x: RunState): RunState {
    if x == SLEEPING then RUNNABLE else x
  }

  function ApplySleep(s: State, step: Step): (t: State)
    requires ShapeOk(s) && Enabled(s, step) && !IsBirthOrDeath(step)
    ensures ShapeOk(t) && |t.state| == |s.state|
  {
    match step
    case Acquire(p, l) => s.(locks := s.locks[l := p])
    case Release(p, l) => s.(locks := s.locks - {l})
    case CallSleep(p, c, l) => s.(pc := s.pc[p := SleepWant(c, l)])
    case SleepLock(p) => s.(plock := s.plock[p := true], pc := s.pc[p := SleepBoth(s.pc[p].c, s.pc[p].l)])
    case SleepRelease(p) => s.(locks := s.locks - {s.pc[p].l}, pc := s.pc[p := SleepOne(s.pc[p].c, s.pc[p].l)])
    case SleepMark(p) =>
      s.(chan := s.chan[p := s.pc[p].c], state := s.state[p := SLEEPING],
        pc := s.pc[p := SleepSet(s.pc[p].c, s.pc[p].l)])
    case SwitchOut(p) =>
      s.(plock := s.plock[p := false], cpus := map k | k in s.cpus && s.cpus[k] != p :: s.cpus[k],
         pc := s.pc[p := if s.pc[p].SleepSet? then Asleep(s.pc[p].c, s.pc[p].l) else
           if s.pc[p].YieldSet? then Ready(s.pc[p].to) else Empty])
    case Schedule(k, p) =>
      s.(state := s.state[p := RUNNING], plock := s.plock[p := true], cpus := s.cpus[k := p],
         pc := s.pc[p := if s.pc[p].Asleep? then AwakeSet(s.pc[p].l)
                         else YieldBack(if s.pc[p].Ready? then s.pc[p].to else ToFree)])
    case AwakeDone(p) => s.(chan := s.chan[p := 0], plock := s.plock[p := false], pc := s.pc[p := SleepBack(s.pc[p].l)])
    case SleepRelock(p) => s.(locks := s.locks[s.pc[p].l := p], pc := s.pc[p := Free])
    case CallWakeup(p, c, l) => s.(pc := s.pc[p := Waking(c, l, 0)])
    case WakeSkip(p) => s.(pc := s.pc[p := Waking(s.pc[p].c, s.pc[p].l, s.pc[p].i + 1)])
    case WakeLock(p) => s.(plock := s.plock[s.pc[p].i := true],
      pc := s.pc[p := WakingHold(s.pc[p].c, s.pc[p].l, s.pc[p].i)])
    case WakeOne(p) =>
      var i := s.pc[p].i;
      s.(state := if s.state[i] == SLEEPING && s.chan[i] == s.pc[p].c then s.state[i := RUNNABLE] else s.state,
         plock := s.plock[i := false], pc := s.pc[p := Waking(s.pc[p].c, s.pc[p].l, i + 1)])
    case WakeDone(p) => s.(pc := s.pc[p := Free])
    case YieldLock(p) => s.(state := s.state[p := RUNNABLE], plock := s.plock[p := true],
         pc := s.pc[p := YieldSet(BackOf(s.pc[p]))])
    case YieldDone(p) => s.(plock := s.plock[p := false], pc := s.pc[p := GoOn(s.pc[p].to)])
    case Kill(p, q) => s.(state := s.state[q := Wake(s.state[q])])
  }

  function ApplyBirth(s: State, step: Step): (t: State)
    requires ShapeOk(s) && Enabled(s, step) && IsBirthOrDeath(step)
    ensures ShapeOk(t) && |t.state| == |s.state|
  {
    match step
    case AllocLock(p, q) => s.(state := s.state[q := USED], plock := s.plock[q := true], pc := s.pc[p := ForkHold(q)])
    case ForkFail(p) =>
      s.(state := s.state[s.pc[p].i := UNUSED], plock := s.plock[s.pc[p].i := false], pc := s.pc[p := Free])
    case ForkRelease(p) => s.(plock := s.plock[s.pc[p].i := false], pc := s.pc[p := ForkMid(s.pc[p].i)])
    case ForkRelock(p) => s.(plock := s.plock[s.pc[p].i := true], pc := s.pc[p := ForkLast(s.pc[p].i)])
    case ForkDone(p) =>
      var i := s.pc[p].i;
      s.(state := s.state[i := RUNNABLE], plock := s.plock[i := false], pc := s.pc[i := Ready(ToFree)][p := Free])
    case ExitMark(p, l) => s.(state := s.state[p := ZOMBIE], plock := s.plock[p := true], pc := s.pc[p := ExitSet(l)])
    case ExitRelease(p) => s.(locks := s.locks - {s.pc[p].l}, pc := s.pc[p := ExitOne])
    case ReapLock(p, q) => s.(plock := s.plock[q := true], pc := s.pc[p := Reaping(q)])
    case ReapDone(p) =>
      var i := s.pc[p].i;
      s.(state := if s.state[i] == ZOMBIE then s.state[i := UNUSED] else s.state,
         chan := if s.state[i] == ZOMBIE then s.chan[i := 0] else s.chan,
         plock := s.plock[i := false], pc := s.pc[p := Free])
  }

  function Apply(s: State, step: Step): (t: State)
    requires ShapeOk(s) && Enabled(s, step)
    ensures ShapeOk(t) && |t.state| == |s.state|
  {
    if IsBirthOrDeath(step) then ApplyBirth(s, step) else ApplySleep(s, step)
  }

  // ------------------------------------------------------------ the invariant

  /** p->lock is held by p itself or by one process in wakeup, fork or wait, never by two. */
  ghost predicate PlockOk(s: State, p: Pid)
    requires ShapeOk(s) && p < |s.state|
  {
    && (OwnHold(s.pc[p]) ==> s.plock[p])
    && (forall w :: 0 <= w < |s.pc| && Grips(s.pc[w], p) ==> s.plock[p] && !OwnHold(s.pc[p]) && w != p)
    && GripOne(s, p)
  }

  ghost predicate GripOne(s: State, p: Pid) {
    forall w, v :: 0 <= w < |s.pc| && 0 <= v < |s.pc| && Grips(s.pc[w], p) && Grips(s.pc[v], p) ==> w == v
  }

  /** A slot that a process is being made in: nobody runs in it, and one process makes it. */
  ghost predicate ForkOk(s: State, p: Pid)
    requires ShapeOk(s) && p < |s.state|
  {
    && (forall w :: 0 <= w < |s.pc| && Forks(s.pc[w], p) ==> s.state[p] == USED && w != p)
    && (forall w, v :: 0 <= w < |s.pc| && 0 <= v < |s.pc| && Forks(s.pc[w], p) && Forks(s.pc[v], p) ==> w == v)
  }

  /** Switched out, or on the way out or in: no spinlock but p->lock is held. */
  predicate Unlocked(pc: Pc) {
    || pc.Empty? || pc.Ready? || pc.Asleep? || pc.SleepOne? || pc.SleepSet? || pc.AwakeSet? || pc.SleepBack?
    || pc.YieldSet? || pc.YieldBack? || pc.ExitOne?
  }

  predicate Wakes(pc: Pc) {
    pc.Waking? || pc.WakingHold?
  }

  /** A process in sleep before the release, or in wakeup, holds its lock; one that gives up the
      CPU holds none. */
  ghost predicate LockOk(s: State, p: Pid)
    requires ShapeOk(s) && p < |s.state|
  {
    var pc := s.pc[p];
    && (Wakes(pc) ==> pc.l in s.locks && s.locks[pc.l] == p)
    && ((pc.SleepWant? || pc.SleepBoth? || pc.ExitSet?) ==> HoldsOnly(s, p, pc.l))
    && (Unlocked(pc) ==> HoldsNone(s, p))
  }

  /** What the process table says, by where the process stands. */
  ghost predicate StateOk(s: State, p: Pid)
    requires ShapeOk(s) && p < |s.state|
  {
    var pc := s.pc[p];
    && (pc.SleepSet? ==> s.state[p] == SLEEPING && s.chan[p] == pc.c)
    && (pc.Asleep? && s.state[p] == SLEEPING ==> s.chan[p] == pc.c)
    && (pc.Ready? || pc.YieldSet? ==> s.state[p] == RUNNABLE)
    && (pc.Empty? ==> s.state[p] == UNUSED || s.state[p] == USED || s.state[p] == ZOMBIE)
    && (pc.Asleep? ==> s.state[p] == SLEEPING || s.state[p] == RUNNABLE)
    && (pc.ExitSet? || pc.ExitOne? ==> s.state[p] == ZOMBIE)
    && (Running(pc) && !pc.SleepSet? && !pc.YieldSet? && !pc.ExitSet? && !pc.ExitOne? ==> s.state[p] == RUNNING)
  }

  /** Committed to sleep on a channel and not woken since. */
  ghost predicate Committed(s: State, p: Pid, c: Chan, l: Lock)
    requires ShapeOk(s) && p < |s.state|
  {
    s.pc[p] == SleepOne(c, l) || s.pc[p] == SleepSet(c, l) || (s.pc[p] == Asleep(c, l) && s.state[p] == SLEEPING)
  }

  /** A process in wakeup has left nobody asleep behind it. */
  ghost predicate WakeOk(s: State, w: Pid)
    requires ShapeOk(s) && w < |s.state|
  {
    var pc := s.pc[w];
    Wakes(pc) ==>
      && pc.i <= |s.state| && (pc.WakingHold? ==> pc.i < |s.state|)
      && forall p: nat :: p < pc.i && p < |s.state| ==> !Committed(s, p, pc.c, pc.l)
  }

  /** A process is on a CPU exactly when it stands in the kernel as running, and on one only. */
  ghost predicate CpuOk(s: State)
    requires ShapeOk(s)
  {
    && (forall k :: k in s.cpus ==> s.cpus[k] < |s.pc| && Running(s.pc[s.cpus[k]]))
    && (forall j, k :: j in s.cpus && k in s.cpus && s.cpus[j] == s.cpus[k] ==> j == k)
    && (forall p: nat :: p < |s.pc| && Running(s.pc[p]) ==> p in s.cpus.Values)
  }

  ghost predicate Inv(s: State) {
    && ShapeOk(s) && CpuOk(s)
    && (forall p: nat :: p < |s.state| ==> PlockOk(s, p))
    && (forall p: nat :: p < |s.state| ==> ForkOk(s, p))
    && (forall p: nat :: p < |s.state| ==> LockOk(s, p))
    && (forall p: nat :: p < |s.state| ==> StateOk(s, p))
    && (forall p: nat :: p < |s.state| ==> WakeOk(s, p))
  }

  // ------------------------------------------------------------ every step keeps it

  /** What the invariant says of one process. */
  lemma At(s: State, p: Pid)
    requires Inv(s) && p < |s.state|
    ensures ShapeOk(s) && PlockOk(s, p) && ForkOk(s, p) && LockOk(s, p) && StateOk(s, p) && WakeOk(s, p)
  {
    hide CpuOk, PlockOk, ForkOk, LockOk, StateOk, WakeOk;
  }

  lemma StepPlock(s: State, step: Step, p: Pid)
    requires Inv(s) && Enabled(s, step) && p < |s.state|
    ensures PlockOk(Apply(s, step), p)
  {
    hide Inv, Enabled, Apply, PlockOk;
    if step.ForkDone? {
      BornPlock(s, step, p);
    } else if IsBirthOrDeath(step) {
      ForkPlock(s, step, p);
    } else {
      SleepPlock(s, step, p);
    }
  }

  lemma BornPlock(s: State, step: Step, p: Pid)
    requires Inv(s) && Enabled(s, step) && p < |s.state| && step.ForkDone?
    ensures PlockOk(Apply(s, step), p)
  {
    hide Inv, WakeOk, LockOk, ForkOk, StateOk, HoldsNone, HoldsOnly, ApplySleep;
    At(s, p);
    assert Grips(s.pc[step.p], s.pc[step.p].i);
    BornOffCpu(s, step.p);
  }

  lemma ForkPlock(s: State, step: Step, p: Pid)
    requires Inv(s) && Enabled(s, step) && p < |s.state| && IsBirthOrDeath(step) && !step.ForkDone?
    ensures PlockOk(Apply(s, step), p)
  {
    hide Inv, WakeOk, LockOk, ForkOk, HoldsNone, HoldsOnly, GripOne, ApplySleep;
    At(s, p);
    At(s, step.p);
    SlotFilled(s, step.p);
    NotGripped(s, step.p);
    StepGripOne(s, step, p);
  }

  lemma SleepPlock(s: State, step: Step, p: Pid)
    requires Inv(s) && Enabled(s, step) && p < |s.state| && !IsBirthOrDeath(step)
    ensures PlockOk(Apply(s, step), p)
  {
    hide Inv, StateOk, WakeOk, LockOk, ForkOk, HoldsNone, HoldsOnly, GripOne, ApplyBirth;
    At(s, p);
    NotGripped(s, step.p);
    StepGripOne(s, step, p);
  }

  /** Nobody else has the lock of the slot that a process grips. */
  lemma NotGripped(s: State, w: Pid)
    requires Inv(s) && w < |s.state|
    ensures var pc := s.pc[w];
            (pc.WakingHold? || pc.ForkHold? || pc.ForkLast? || pc.Reaping?) && pc.i < |s.state| ==>
              && s.plock[pc.i] && !OwnHold(s.pc[pc.i]) && pc.i != w
              && forall v :: 0 <= v < |s.pc| && Grips(s.pc[v], pc.i) ==> v == w
  {
    hide CpuOk, StateOk, WakeOk, LockOk, ForkOk;
    var pc := s.pc[w];
    if (pc.WakingHold? || pc.ForkHold? || pc.ForkLast? || pc.Reaping?) && pc.i < |s.state| {
      assert Grips(pc, pc.i) && PlockOk(s, pc.i);
    }
  }

  lemma StepGripOne(s: State, step: Step, p: Pid)
    requires Inv(s) && Enabled(s, step) && p < |s.state| && !step.ForkDone?
    ensures GripOne(Apply(s, step), p)
  {
    hide Inv, StateOk, WakeOk, LockOk, ForkOk, Enabled, Apply, Grips;
    At(s, p);
    NewGrip(s, step, p);
    var t := Apply(s, step);
    assert forall w :: 0 <= w < |s.pc| && w != step.p ==> t.pc[w] == s.pc[w];
  }

  /** A step grips a slot only if its lock is free. */
  lemma NewGrip(s: State, step: Step, p: Pid)
    requires ShapeOk(s) && Enabled(s, step) && p < |s.state| && !step.ForkDone?
    ensures var t := Apply(s, step);
            && step.p < |s.pc|
            && (forall w :: 0 <= w < |s.pc| && w != step.p ==> t.pc[w] == s.pc[w])
            && (Grips(t.pc[step.p], p) && !Grips(s.pc[step.p], p) ==> !s.plock[p])
  {
    hide Enabled, Apply, Grips;
    OnePcMoves(s, step);
    if IsBirthOrDeath(step) {
      BirthGrip(s, step, p);
    } else {
      SleepGrip(s, step, p);
    }
  }

  lemma BirthGrip(s: State, step: Step, p: Pid)
    requires ShapeOk(s) && Enabled(s, step) && p < |s.state| && !step.ForkDone? && IsBirthOrDeath(step)
    ensures Grips(Apply(s, step).pc[step.p], p) && !Grips(s.pc[step.p], p) ==> !s.plock[p]
  {
    hide HoldsNone, HoldsOnly, ApplySleep;
  }

  lemma SleepGrip(s: State, step: Step, p: Pid)
    requires ShapeOk(s) && Enabled(s, step) && p < |s.state| && !IsBirthOrDeath(step)
    ensures Grips(Apply(s, step).pc[step.p], p) && !Grips(s.pc[step.p], p) ==> !s.plock[p]
  {
    hide HoldsNone, HoldsOnly, ApplyBirth;
  }

  lemma OnePcMoves(s: State, step: Step)
    requires ShapeOk(s) && Enabled(s, step) && !step.ForkDone?
    ensures step.p < |s.pc| && Apply(s, step).pc == s.pc[step.p := Apply(s, step).pc[step.p]]
  {
    hide HoldsNone, HoldsOnly;
  }

  lemma StepLock(s: State, step: Step, p: Pid)
    requires Inv(s) && Enabled(s, step) && p < |s.state|
    ensures LockOk(Apply(s, step), p)
  {
    hide Inv, Enabled, Apply, LockOk;
    if IsBirthOrDeath(step) {
      BirthLock(s, step, p);
    } else {
      SleepLocks(s, step, p);
    }
  }

  lemma BirthLock(s: State, step: Step, p: Pid)
    requires Inv(s) && Enabled(s, step) && p < |s.state| && IsBirthOrDeath(step)
    ensures LockOk(Apply(s, step), p)
  {
    hide Inv, Enabled, Apply, LockOk;
    if step.p == p {
      OwnBirthLock(s, step);
    } else {
      OtherBirthLock(s, step, p);
    }
  }

  lemma OwnBirthLock(s: State, step: Step)
    requires Inv(s) && Enabled(s, step) && IsBirthOrDeath(step)
    ensures LockOk(Apply(s, step), step.p)
  {
    hide Inv, StateOk, WakeOk, PlockOk, ForkOk, ApplySleep;
    At(s, step.p);
  }

  lemma OtherBirthLock(s: State, step: Step, p: Pid)
    requires Inv(s) && Enabled(s, step) && p < |s.state| && IsBirthOrDeath(step) && step.p != p
    ensures LockOk(Apply(s, step), p)
  {
    hide Inv, StateOk, WakeOk, PlockOk, ForkOk, ApplySleep;
    At(s, p);
    At(s, step.p);
    if step.ForkDone? { BornOffCpu(s, step.p); }
  }

  lemma SleepLocks(s: State, step: Step, p: Pid)
    requires Inv(s) && Enabled(s, step) && p < |s.state| && !IsBirthOrDeath(step)
    ensures LockOk(Apply(s, step), p)
  {
    hide Inv, StateOk, WakeOk, PlockOk, ForkOk, ApplyBirth, Apply, LockOk, HoldsNone, HoldsOnly;
    At(s, p);
    At(s, step.p);
    if p == step.p {
      if step.Schedule? { OffCpu(s, step.p); }
      OwnLocks(s, step);
    } else {
      OtherLocks(s, step, p);
    }
  }

  lemma OwnLocks(s: State, step: Step)
    requires ShapeOk(s) && Enabled(s, step) && !IsBirthOrDeath(step) && LockOk(s, step.p)
    requires step.Schedule? ==> !Running(s.pc[step.p])
    ensures LockOk(Apply(s, step), step.p)
  {
    hide ApplyBirth;
  }

  lemma OtherLocks(s: State, step: Step, p: Pid)
    requires ShapeOk(s) && Enabled(s, step) && !IsBirthOrDeath(step) && p < |s.state| && p != step.p
    requires LockOk(s, p) && LockOk(s, step.p)
    ensures LockOk(Apply(s, step), p)
  {
    hide ApplyBirth;
  }

  lemma StepState(s: State, step: Step, p: Pid)
    requires Inv(s) && Enabled(s, step) && p < |s.state|
    ensures StateOk(Apply(s, step), p)
  {
    hide Inv, Enabled, Apply, StateOk;
    if IsBirthOrDeath(step) {
      BirthState(s, step, p);
    } else {
      SleepState(s, step, p);
    }
  }

  lemma BirthState(s: State, step: Step, p: Pid)
    requires Inv(s) && Enabled(s, step) && p < |s.state| && IsBirthOrDeath(step)
    ensures StateOk(Apply(s, step), p)
  {
    hide Inv, WakeOk, LockOk, ForkOk, PlockOk, HoldsNone, HoldsOnly, ApplySleep;
    At(s, p);
    At(s, step.p);
    NotGripped(s, step.p);
    SlotFilled(s, step.p);
  }

  lemma SleepState(s: State, step: Step, p: Pid)
    requires Inv(s) && Enabled(s, step) && p < |s.state| && !IsBirthOrDeath(step)
    ensures StateOk(Apply(s, step), p)
  {
    hide Inv, WakeOk, LockOk, ForkOk, PlockOk, HoldsNone, HoldsOnly, ApplyBirth;
    At(s, p);
    OwnHeld(s, p);
    NotGripped(s, step.p);
  }

  lemma OwnHeld(s: State, p: Pid)
    requires Inv(s) && p < |s.state|
    ensures OwnHold(s.pc[p]) ==> s.plock[p]
  {
    hide CpuOk, WakeOk, LockOk, ForkOk, StateOk;
    assert PlockOk(s, p);
  }

  lemma StepFork(s: State, step: Step, p: Pid)
    requires Inv(s) && Enabled(s, step) && p < |s.state|
    ensures ForkOk(Apply(s, step), p)
  {
    hide Inv, Enabled, Apply, ForkOk;
    if IsBirthOrDeath(step) {
      BirthFork(s, step, p);
    } else {
      SleepFork(s, step, p);
    }
  }

  lemma BirthFork(s: State, step: Step, p: Pid)
    requires Inv(s) && Enabled(s, step) && p < |s.state| && IsBirthOrDeath(step)
    ensures ForkOk(Apply(s, step), p)
  {
    hide Inv, WakeOk, LockOk, PlockOk, StateOk, Enabled, Apply, Forks;
    At(s, p);
    ForkMoves(s, step, p);
  }

  /** Who fills slot p, and whether it is marked used, before and after a step. */
  ghost predicate FillsOn(s: State, t: State, p: Pid, w: Pid)
    requires ShapeOk(s) && ShapeOk(t) && |t.state| == |s.state| && p < |s.state| && w < |s.state|
  {
    && (forall v :: 0 <= v < |s.pc| && v != w && Forks(t.pc[v], p) ==> Forks(s.pc[v], p))
    && (Forks(t.pc[w], p) && !Forks(s.pc[w], p) ==> w != p && s.state[p] == UNUSED && t.state[p] == USED)
    && (s.state[p] == USED && t.state[p] != USED ==> Forks(s.pc[w], p) && !Forks(t.pc[w], p))
  }

  lemma ForkMoves(s: State, step: Step, p: Pid)
    requires Inv(s) && Enabled(s, step) && p < |s.state| && IsBirthOrDeath(step)
    ensures step.p < |s.state| && FillsOn(s, Apply(s, step), p, step.p)
  {
    hide Inv, Enabled, Apply, FillsOn, StateOk;
    if step.ForkDone? {
      DoneMoves(s, step, p);
    } else {
      At(s, p);
      OnePcMoves(s, step);
      FillMoves(s, step, p);
    }
  }

  lemma DoneMoves(s: State, step: Step, p: Pid)
    requires Inv(s) && Enabled(s, step) && p < |s.state| && step.ForkDone?
    ensures step.p < |s.state| && FillsOn(s, Apply(s, step), p, step.p)
  {
    hide Inv, HoldsNone, HoldsOnly, ApplySleep;
    At(s, step.p);
    BornOffCpu(s, step.p);
  }

  lemma FillMoves(s: State, step: Step, p: Pid)
    requires Inv(s) && Enabled(s, step) && p < |s.state| && IsBirthOrDeath(step) && !step.ForkDone?
    requires step.p < |s.pc| && Apply(s, step).pc == s.pc[step.p := Apply(s, step).pc[step.p]]
    ensures FillsOn(s, Apply(s, step), p, step.p)
  {
    hide Inv, WakeOk, LockOk, PlockOk, ForkOk, HoldsNone, HoldsOnly, ApplySleep;
    At(s, step.p);
  }

  lemma SleepFork(s: State, step: Step, p: Pid)
    requires Inv(s) && Enabled(s, step) && p < |s.state| && !IsBirthOrDeath(step)
    ensures ForkOk(Apply(s, step), p)
  {
    hide Inv, WakeOk, LockOk, PlockOk, StateOk, Enabled, Apply, Forks;
    At(s, p);
    OnePcMoves(s, step);
    SleepForks(s, step, p);
  }

  /** Such a step starts no fork, and leaves a slot marked used. */
  lemma SleepForks(s: State, step: Step, p: Pid)
    requires Inv(s) && Enabled(s, step) && p < |s.state| && !IsBirthOrDeath(step)
    ensures Forks(Apply(s, step).pc[step.p], p) ==> Forks(s.pc[step.p], p)
    ensures s.state[p] == USED ==> Apply(s, step).state[p] == USED
  {
    hide Inv, WakeOk, LockOk, ForkOk, PlockOk, HoldsNone, HoldsOnly, ApplyBirth;
    At(s, p);
  }

  /** A process commits to sleep only by releasing its lock in sleep. */
  lemma NewSleeper(s: State, step: Step, p: Pid, c: Chan, l: Lock)
    requires ShapeOk(s) && Enabled(s, step) && p < |s.state|
    ensures Committed(Apply(s, step), p, c, l) && !Committed(s, p, c, l) ==>
              step == SleepRelease(p) && s.pc[p] == SleepBoth(c, l)
  {
    hide Enabled, Apply, Committed;
    if step.p == p {
      OwnCommit(s, step, c, l);
    } else {
      OtherCommit(s, step, p, c, l);
    }
  }

  lemma OwnCommit(s: State, step: Step, c: Chan, l: Lock)
    requires ShapeOk(s) && Enabled(s, step)
    ensures Committed(Apply(s, step), step.p, c, l) && !Committed(s, step.p, c, l) ==>
              step == SleepRelease(step.p) && s.pc[step.p] == SleepBoth(c, l)
  {
    hide HoldsNone, HoldsOnly, Apply, Enabled;
    if IsBirthOrDeath(step) { BirthCommits(s, step, c, l); } else { SleepCommits(s, step, c, l); }
  }

  lemma BirthCommits(s: State, step: Step, c: Chan, l: Lock)
    requires ShapeOk(s) && Enabled(s, step) && IsBirthOrDeath(step)
    ensures Committed(Apply(s, step), step.p, c, l) ==> Committed(s, step.p, c, l)
  {
    hide HoldsNone, HoldsOnly, ApplySleep;
  }

  lemma SleepCommits(s: State, step: Step, c: Chan, l: Lock)
    requires ShapeOk(s) && Enabled(s, step) && !IsBirthOrDeath(step)
    ensures Committed(Apply(s, step), step.p, c, l) && !Committed(s, step.p, c, l) ==>
              step == SleepRelease(step.p) && s.pc[step.p] == SleepBoth(c, l)
  {
    hide HoldsNone, HoldsOnly, ApplyBirth;
  }

  lemma OtherCommit(s: State, step: Step, p: Pid, c: Chan, l: Lock)
    requires ShapeOk(s) && Enabled(s, step) && p < |s.state| && step.p != p
    ensures Committed(Apply(s, step), p, c, l) ==> Committed(s, p, c, l)
  {
    hide HoldsNone, HoldsOnly;
    var t := Apply(s, step);
    assert t.pc[p] == s.pc[p] || t.pc[p].Ready?;
    assert t.state[p] == SLEEPING ==> s.state[p] == SLEEPING;
  }

  /** Nobody commits to sleep under a lock that a process in wakeup holds. */
  lemma StepCommits(s: State, step: Step, w: Pid, p: Pid)
    requires Inv(s) && Enabled(s, step) && w < |s.state| && p < |s.state|
    requires Wakes(s.pc[w])
    ensures Committed(Apply(s, step), p, s.pc[w].c, s.pc[w].l) ==> Committed(s, p, s.pc[w].c, s.pc[w].l)
  {
    hide CpuOk, WakeOk, PlockOk, ForkOk, StateOk, HoldsNone, Enabled, Apply, Committed;
    NewSleeper(s, step, p, s.pc[w].c, s.pc[w].l);
    assert LockOk(s, p) && LockOk(s, w);
  }

  lemma StepWake(s: State, step: Step, w: Pid)
    requires Inv(s) && Enabled(s, step) && w < |s.state|
    ensures WakeOk(Apply(s, step), w)
  {
    hide Inv, PlockOk, LockOk, ForkOk, StateOk, Enabled, Apply, Committed;
    At(s, w);
    var t := Apply(s, step);
    if Wakes(t.pc[w]) {
      WakerMoves(s, step, w);
      if Wakes(s.pc[w]) {
        forall p: nat | p < t.pc[w].i && p < |t.state| ensures !Committed(t, p, t.pc[w].c, t.pc[w].l) {
          StepCommits(s, step, w, p);
          if p >= s.pc[w].i { SlotDone(s, step, w); }
        }
      }
    }
  }

  /** A waker starts at the first slot and moves on slot by slot, past itself or after a wakeup of the slot. */
  lemma WakerMoves(s: State, step: Step, w: Pid)
    requires ShapeOk(s) && Enabled(s, step) && w < |s.state| && Wakes(Apply(s, step).pc[w])
    requires WakeOk(s, w)
    ensures var pc, pc' := s.pc[w], Apply(s, step).pc[w];
            if Wakes(pc) then
              && pc'.c == pc.c && pc'.l == pc.l && pc'.i <= |s.state| && (pc'.WakingHold? ==> pc'.i < |s.state|)
              && (pc'.i == pc.i || (pc'.i == pc.i + 1 && step.p == w && (step.WakeSkip? || step.WakeOne?)))
            else pc'.Waking? && pc'.i == 0
  {
    hide HoldsNone, HoldsOnly, Committed;
  }

  /** The slot a process in wakeup has just dealt with is not asleep. */
  lemma SlotDone(s: State, step: Step, w: Pid)
    requires Inv(s) && Enabled(s, step) && step.p == w && (step.WakeSkip? || step.WakeOne?)
    ensures s.pc[w].i < |s.state| && !Committed(Apply(s, step), s.pc[w].i, s.pc[w].c, s.pc[w].l)
  {
    hide CpuOk, LockOk, ForkOk, HoldsNone, HoldsOnly, WakeOk;
    var i := s.pc[w].i;
    assert PlockOk(s, i) && StateOk(s, i);
  }

  lemma ScheduleCpu(s: State, step: Step)
    requires ShapeOk(s) && CpuOk(s) && step.Schedule? && Enabled(s, step) && !Running(s.pc[step.p])
    ensures CpuOk(Apply(s, step))
  {
    hide ApplyBirth, HoldsNone, HoldsOnly;
    NewCpu(s, step.k, step.p);
  }

  lemma SwitchCpu(s: State, step: Step)
    requires ShapeOk(s) && CpuOk(s) && step.SwitchOut? && Enabled(s, step)
    ensures CpuOk(Apply(s, step))
  {
    hide ApplyBirth, HoldsNone, HoldsOnly;
    GoneCpu(s, step.p);
  }

  lemma StepCpu(s: State, step: Step)
    requires Inv(s) && Enabled(s, step)
    ensures CpuOk(Apply(s, step))
  {
    hide WakeOk, LockOk, ForkOk, HoldsNone, HoldsOnly, PlockOk, StateOk, CpuOk, Apply;
    if step.Schedule? {
      OffCpu(s, step.p);
      ScheduleCpu(s, step);
    } else if step.SwitchOut? {
      SwitchCpu(s, step);
    } else if step.ForkDone? {
      BornOffCpu(s, step.p);
      SameCpu(s, step);
    } else {
      SameCpu(s, step);
    }
  }

  /** A process that can be scheduled is on no CPU. */
  lemma OffCpu(s: State, p: Pid)
    requires Inv(s) && p < |s.state| && !s.plock[p] && s.state[p] == RUNNABLE
    ensures !Running(s.pc[p])
  {
    hide WakeOk, LockOk, CpuOk;
    assert PlockOk(s, p) && StateOk(s, p);
  }

  /** The slot that fork fills is marked used, and is not the parent's. */
  lemma SlotFilled(s: State, w: Pid)
    requires Inv(s) && w < |s.state|
    ensures var pc := s.pc[w];
            (pc.ForkHold? || pc.ForkMid? || pc.ForkLast?) && pc.i < |s.state| ==> s.state[pc.i] == USED && pc.i != w
  {
    hide WakeOk, LockOk, CpuOk, StateOk, PlockOk;
    var pc := s.pc[w];
    if (pc.ForkHold? || pc.ForkMid? || pc.ForkLast?) && pc.i < |s.state| {
      assert Forks(pc, pc.i) && ForkOk(s, pc.i);
    }
  }

  /** Nobody runs in a slot while fork fills it. */
  lemma BornOffCpu(s: State, p: Pid)
    requires Inv(s) && p < |s.state| && s.pc[p].ForkLast? && s.pc[p].i < |s.state|
    ensures s.pc[s.pc[p].i].Empty? && s.pc[p].i != p
  {
    hide WakeOk, LockOk, CpuOk, ForkOk, PlockOk;
    SlotFilled(s, p);
    assert StateOk(s, s.pc[p].i);
  }

  lemma SameCpu(s: State, step: Step)
    requires ShapeOk(s) && CpuOk(s) && Enabled(s, step) && !step.Schedule? && !step.SwitchOut?
    requires step.ForkDone? ==> s.pc[s.pc[step.p].i].Empty? && s.pc[step.p].i != step.p
    ensures CpuOk(Apply(s, step))
  {
    hide Enabled, Apply, CpuOk, Running;
    if IsBirthOrDeath(step) {
      BirthRuns(s, step);
    } else {
      SleepRuns(s, step);
    }
    CpuFrame(s, Apply(s, step));
  }

  lemma BirthRuns(s: State, step: Step)
    requires ShapeOk(s) && Enabled(s, step) && IsBirthOrDeath(step)
    requires step.ForkDone? ==> s.pc[s.pc[step.p].i].Empty? && s.pc[step.p].i != step.p
    ensures var t := Apply(s, step);
            t.cpus == s.cpus && forall p: nat :: p < |s.pc| ==> Running(t.pc[p]) == Running(s.pc[p])
  {
    hide HoldsNone, HoldsOnly, ApplySleep;
  }

  lemma SleepRuns(s: State, step: Step)
    requires ShapeOk(s) && Enabled(s, step) && !IsBirthOrDeath(step) && !step.Schedule? && !step.SwitchOut?
    ensures var t := Apply(s, step);
            t.cpus == s.cpus && forall p: nat :: p < |s.pc| ==> Running(t.pc[p]) == Running(s.pc[p])
  {
    hide HoldsNone, HoldsOnly, ApplyBirth;
  }

  lemma CpuFrame(s: State, t: State)
    requires ShapeOk(s) && ShapeOk(t) && CpuOk(s) && t.cpus == s.cpus && |t.pc| == |s.pc|
    requires forall p: nat :: p < |s.pc| ==> Running(t.pc[p]) == Running(s.pc[p])
    ensures CpuOk(t)
  {
  }

  lemma NewCpu(s: State, k: Cpu, p: Pid)
    requires ShapeOk(s) && CpuOk(s) && p < |s.state| && k !in s.cpus && !Running(s.pc[p])
    ensures var cpus := s.cpus[k := p];
            && (forall i, j :: i in cpus && j in cpus && cpus[i] == cpus[j] ==> i == j)
            && (forall q: nat :: q < |s.pc| && (Running(s.pc[q]) || q == p) ==> q in cpus.Values)
  {
    var cpus := s.cpus[k := p];
    forall q: nat | q < |s.pc| && (Running(s.pc[q]) || q == p) ensures q in cpus.Values {
      if q == p { assert cpus[k] == p; } else {
        var j :| j in s.cpus && s.cpus[j] == q;
        assert cpus[j] == q;
      }
    }
  }

  lemma GoneCpu(s: State, p: Pid)
    requires ShapeOk(s) && CpuOk(s) && p < |s.state|
    ensures var cpus := map k | k in s.cpus && s.cpus[k] != p :: s.cpus[k];
            forall q: nat :: q < |s.pc| && Running(s.pc[q]) && q != p ==> q in cpus.Values
  {
    var cpus := map k | k in s.cpus && s.cpus[k] != p :: s.cpus[k];
    forall q: nat | q < |s.pc| && Running(s.pc[q]) && q != p ensures q in cpus.Values {
      var j :| j in s.cpus && s.cpus[j] == q;
      assert cpus[j] == q;
    }
  }

  lemma StepInv(s: State, step: Step)
    requires Inv(s) && Enabled(s, step)
    ensures Inv(Apply(s, step))
  {
    hide CpuOk, WakeOk, LockOk, StateOk, PlockOk, ForkOk, Enabled, Apply;
    StepCpu(s, step);
    var t := Apply(s, step);
    forall p: nat | p < |s.state|
      ensures PlockOk(t, p) && ForkOk(t, p) && LockOk(t, p) && StateOk(t, p) && WakeOk(t, p)
    {
      StepPlock(s, step, p);
      StepLock(s, step, p);
      StepState(s, step, p);
      StepFork(s, step, p);
      StepWake(s, step, p);
    }
  }

  // ------------------------------------------------------------ runs

  predicate CanRun(s: State, steps: seq<Step>)
    requires ShapeOk(s)
    decreases |steps|
  {
    steps == [] || (Enabled(s, steps[0]) && CanRun(Apply(s, steps[0]), steps[1..]))
  }

  function RunTo(s: State, steps: seq<Step>): (t: State)
    requires ShapeOk(s) && CanRun(s, steps)
    ensures ShapeOk(t)
    decreases |steps|
  {
    if steps == [] then s else RunTo(Apply(s, steps[0]), steps[1..])
  }

  /** Some processes, off the CPU and ready to run; the other slots unused; all locks free. */
  ghost predicate Init(s: State) {
    && ShapeOk(s) && s.locks == map[] && s.cpus == map[]
    && forall p: nat :: p < |s.state| ==>
         !s.plock[p] && ((s.pc[p] == Ready(ToFree) && s.state[p] == RUNNABLE) ||
           (s.pc[p].Empty? && s.state[p] == UNUSED))
  }

  lemma {:induction false} RunInv(s: State, steps: seq<Step>)
    requires ShapeOk(s) && Inv(s) && CanRun(s, steps)
    ensures Inv(RunTo(s, steps))
    decreases |steps|
  {
    hide Inv, Enabled, Apply;
    if steps != [] {
      StepInv(s, steps[0]);
      RunInv(Apply(s, steps[0]), steps[1..]);
    }
  }

  lemma ReachableInv(s: State, steps: seq<Step>)
    requires Init(s) && CanRun(s, steps)
    ensures Inv(RunTo(s, steps))
  {
    hide RunTo, CanRun;
    InitInv(s);
    RunInv(s, steps);
  }

  lemma InitInv(s: State)
    requires Init(s)
    ensures Inv(s)
  {
  }

  /** No lost wakeup: in every interleaving, when wakeup(c) called under lock l is done, no
      process that called sleep(c, l) is still asleep. */
  lemma NoLostWakeup(s: State, steps: seq<Step>, w: Pid, p: Pid)
    requires Init(s) && CanRun(s, steps)
    requires w < |RunTo(s, steps).state| && p < |RunTo(s, steps).state|
    requires Enabled(RunTo(s, steps), WakeDone(w))
    ensures var t := RunTo(s, steps);
            !Committed(t, p, t.pc[w].c, t.pc[w].l)
  {
    hide Enabled, Apply;
    ReachableInv(s, steps);
    WakeDoneOk(RunTo(s, steps), w, p);
  }

  lemma WakeDoneOk(t: State, w: Pid, p: Pid)
    requires Inv(t) && w < |t.state| && p < |t.state| && Enabled(t, WakeDone(w))
    ensures !Committed(t, p, t.pc[w].c, t.pc[w].l)
  {
    hide CpuOk, LockOk, StateOk, PlockOk, ForkOk;
    assert WakeOk(t, w);
  }

  /** With p->lock free, a process is RUNNING exactly when one CPU runs it, and then only one. */
  lemma RunningIsOnOneCpu(s: State, steps: seq<Step>, p: Pid)
    requires Init(s) && CanRun(s, steps) && p < |RunTo(s, steps).state| && !RunTo(s, steps).plock[p]
    ensures var t := RunTo(s, steps);
            && (t.state[p] == RUNNING <==> exists k :: k in t.cpus && t.cpus[k] == p)
            && forall j, k :: j in t.cpus && k in t.cpus && t.cpus[j] == t.cpus[k] ==> j == k
  {
    hide Enabled, Apply;
    ReachableInv(s, steps);
    OneCpu(RunTo(s, steps), p);
  }

  lemma OneCpu(t: State, p: Pid)
    requires Inv(t) && p < |t.state| && !t.plock[p]
    ensures t.state[p] == RUNNING <==> exists k :: k in t.cpus && t.cpus[k] == p
    ensures forall j, k :: j in t.cpus && k in t.cpus && t.cpus[j] == t.cpus[k] ==> j == k
  {
    hide LockOk, WakeOk, ForkOk;
    assert StateOk(t, p) && PlockOk(t, p);
    if t.state[p] == RUNNING {
      assert p in t.cpus.Values;
    }
  }

  ghost predicate OnCpu(s: State, p: Pid) {
    exists k :: k in s.cpus && s.cpus[k] == p
  }

  /** A slot that wait frees, or that allocproc hands out, is on no CPU: the process that exited in
      it has switched away for good. So is every unused slot and every slot fork is filling. */
  lemma ReusedSlotIsOffCpu(s: State, steps: seq<Step>, p: Pid)
    requires Init(s) && CanRun(s, steps) && p < |RunTo(s, steps).state|
    ensures var t := RunTo(s, steps);
            && (t.state[p] == UNUSED || t.state[p] == USED ==> !OnCpu(t, p))
            && (t.state[p] == ZOMBIE && !t.plock[p] ==> !OnCpu(t, p))
            && forall w: nat :: w < |t.pc| && t.pc[w] == Reaping(p) && t.state[p] == ZOMBIE ==> !OnCpu(t, p)
  {
    hide Enabled, Apply;
    ReachableInv(s, steps);
    SlotOff(RunTo(s, steps), p);
  }

  lemma SlotOff(t: State, p: Pid)
    requires Inv(t) && p < |t.state|
    ensures t.state[p] == UNUSED || t.state[p] == USED ==> !OnCpu(t, p)
    ensures t.state[p] == ZOMBIE && !t.plock[p] ==> !OnCpu(t, p)
    ensures forall w: nat :: w < |t.pc| && t.pc[w] == Reaping(p) && t.state[p] == ZOMBIE ==> !OnCpu(t, p)
  {
    hide LockOk, WakeOk, ForkOk;
    assert StateOk(t, p) && PlockOk(t, p);
    forall w: nat | w < |t.pc| && t.pc[w] == Reaping(p) && t.state[p] == ZOMBIE ensures !OnCpu(t, p) {
      assert Grips(t.pc[w], p);
    }
  }

  /** The panics of sched are out of reach: whoever switches out holds its p->lock and no other
      spinlock, and is not RUNNING any more. */
  lemma SchedHoldsOneLock(s: State, steps: seq<Step>, p: Pid)
    requires Init(s) && CanRun(s, steps) && p < |RunTo(s, steps).state| && Enabled(RunTo(s, steps), SwitchOut(p))
    ensures var t := RunTo(s, steps);
            t.plock[p] && HoldsNone(t, p) && t.state[p] != RUNNING && OnCpu(t, p)
  {
    hide Apply;
    ReachableInv(s, steps);
    SwitchReady(RunTo(s, steps), p);
  }

  lemma SwitchReady(t: State, p: Pid)
    requires Inv(t) && p < |t.state| && (t.pc[p].SleepSet? || t.pc[p].YieldSet? || t.pc[p].ExitOne?)
    ensures t.plock[p] && HoldsNone(t, p) && t.state[p] != RUNNING && OnCpu(t, p)
  {
    hide WakeOk, ForkOk, HoldsNone;
    assert StateOk(t, p) && PlockOk(t, p) && LockOk(t, p);
    assert p in t.cpus.Values;
  }
}
