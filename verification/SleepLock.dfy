/** kernel/sleeplock.c over sleep and wakeup: processes that acquire, release and ask for a sleep
    lock, interleaved with everything SleepWakeup has, kill included, one step at a time. */
module SleepLock {
  import S = SleepWakeup

  type Pid = S.Pid

  const LK: S.Lock := 0  // lk->lk
  const CH: S.Chan := 1  // the channel, lk itself

  /** Where a process stands in sleeplock.c. */
  datatype Status =
    | Out       // outside
    | Testing   // holds the spinlock, about to test `locked`
    | InSleep   // in sleep(lk, &lk->lk)
    | Taken     // has set `locked`, still holds the spinlock
    | Holder    // has the sleep lock
    | Dropping  // has the sleep lock and the spinlock
    | Freed     // has cleared `locked`, still holds the spinlock
    | Waker     // in wakeup(lk)
    | Done      // back from wakeup, still holds the spinlock

  datatype State = State(sw: S.State, locked: bool, pid: Pid, who: seq<Status>)

  datatype Step = Inner(x: S.Step) | Take(p: Pid) | Drop(p: Pid)

  /** What a step of the machine below is for the process that takes it. */
  function After(st: Status, x: S.Step): Status {
    if x.Acquire? && x.al == LK then (if st.Out? then Testing else Dropping)
    else if x.Release? && x.al == LK then (if st.Taken? || st.Dropping? then Holder else Out)
    else if x.CallSleep? && x.al == LK then InSleep
    else if x.SleepRelock? && st.InSleep? then Testing
    else if x.CallWakeup? && x.al == LK then Waker
    else if x.WakeDone? && st.Waker? then Done
    else st
  }

  /** Inside one of the functions, with the spinlock held. */
  predicate Inside(st: Status) {
    st.Testing? || st.Taken? || st.Dropping? || st.Freed? || st.Done?
  }

  /** The spinlock and the channel are used by this code only, and nobody exits with the lock. A
      process that releases the spinlock without a change has called holdingsleep. */
  predicate Allowed(s: State, x: S.Step)
    requires x.p < |s.who|
  {
    var st := s.who[x.p];
    if x.Acquire? && x.al == LK then st.Out? || st.Holder?
    else if x.Release? && x.al == LK then st.Testing? || st.Taken? || st.Dropping? || st.Done?
    else if x.CallSleep? && (x.al == LK || x.c == CH) then x.al == LK && x.c == CH && st.Testing? && s.locked
    else if x.CallWakeup? && (x.al == LK || x.c == CH) then x.al == LK && x.c == CH && st.Freed?
    else if x.ExitMark? then st.Out?
    else !Inside(st)
  }

  predicate ShapeOk(s: State) {
    S.ShapeOk(s.sw) && |s.who| == |s.sw.state|
  }

  predicate Enabled(s: State, step: Step)
    requires ShapeOk(s)
  {
    match step
    case Inner(x) => S.Enabled(s.sw, x) && Allowed(s, x)
    case Take(p) => p < |s.who| && s.who[p].Testing? && !s.locked
    case Drop(p) => p < |s.who| && s.who[p].Dropping?
  }

  function Apply(s: State, step: Step): (t: State)
    requires ShapeOk(s) && Enabled(s, step)
    ensures ShapeOk(t) && |t.who| == |s.who|
  {
    match step
    case Inner(x) => s.(sw := S.Apply(s.sw, x), who := s.who[x.p := After(s.who[x.p], x)])
    case Take(p) => State(s.sw, true, p, s.who[p := Taken])
    case Drop(p) => State(s.sw, false, 0, s.who[p := Freed])
  }

  /** holdingsleep. */
  predicate Holding(s: State, p: Pid) {
    s.locked && s.pid == p
  }

  // ------------------------------------------------------------ the invariant

  predicate HasLock(st: Status) {
    st.Taken? || st.Holder? || st.Dropping?
  }

  predicate HoldsSpin(s: State, p: Pid) {
    LK in s.sw.locks && s.sw.locks[LK] == p
  }

  /** In sleep on this lock. */
  predicate SleepsHere(pc: S.Pc) {
    || ((pc.SleepWant? || pc.SleepBoth? || pc.SleepOne? || pc.SleepSet? || pc.Asleep? || pc.AwakeSet? || pc.SleepBack?)
        && pc.l == LK)
    || ((pc.YieldSet? || pc.Ready? || pc.YieldBack?) && pc.to == S.ToSleep(LK))
  }

  predicate WakesHere(pc: S.Pc) {
    S.Wakes(pc) && pc.l == LK
  }

  ghost predicate StatusOk(s: State, p: Pid)
    requires ShapeOk(s) && p < |s.who|
  {
    var pc, st := s.sw.pc[p], s.who[p];
    && (Inside(st) ==> pc.Free? && HoldsSpin(s, p))
    && (st.Waker? <==> WakesHere(pc))
    && (st.Waker? ==> pc.c == CH)
    && (st.InSleep? <==> SleepsHere(pc))
    && (st.Out? || st.Holder? ==> !HoldsSpin(s, p))
    && (HasLock(st) <==> Holding(s, p))
    && (st.InSleep? && (pc.SleepWant? || pc.SleepBoth?) ==> s.locked)
    && (pc.Empty? || pc.ExitSet? || pc.ExitOne? ==> st.Out?)
  }

  /** Somebody has freed the lock and has not yet woken everybody. */
  ghost predicate WakeupDue(s: State)
    requires ShapeOk(s)
  {
    LK in s.sw.locks && s.sw.locks[LK] < |s.who| && (s.who[s.sw.locks[LK]].Freed? || s.who[s.sw.locks[LK]].Waker?)
  }

  /** Nobody sleeps on a free lock, unless a wakeup is due. */
  ghost predicate SleepersOk(s: State)
    requires ShapeOk(s)
  {
    s.locked || WakeupDue(s) || forall p: nat :: p < |s.who| ==> !S.Committed(s.sw, p, CH, LK)
  }

  ghost predicate Inv(s: State) {
    && ShapeOk(s) && S.Inv(s.sw) && SleepersOk(s) && (s.locked ==> s.pid < |s.who|)
    && forall p: nat :: p < |s.who| ==> StatusOk(s, p)
  }

  // ------------------------------------------------------------ every step keeps it

  lemma StepStatus(s: State, x: S.Step, p: Pid)
    requires Inv(s) && Enabled(s, Inner(x)) && p < |s.who|
    ensures StatusOk(Apply(s, Inner(x)), p)
  {
    hide S.Inv, S.Enabled, S.Apply, StatusOk, SleepersOk;
    if x.p != p {
      OtherStatus(s, x, p);
    } else if s.sw.pc[p].Free? {
      FreeStatus(s, x);
    } else if s.who[p].InSleep? {
      SleepStatus(s, x);
    } else {
      BusyStatus(s, x);
    }
  }

  lemma FreeStatus(s: State, x: S.Step)
    requires Inv(s) && Enabled(s, Inner(x)) && s.sw.pc[x.p].Free?
    ensures StatusOk(Apply(s, Inner(x)), x.p)
  {
    hide S.Inv, SleepersOk, S.HoldsNone, S.HoldsOnly, S.ApplyBirth, S.ApplySleep;
    if S.IsBirthOrDeath(x) {
      FreeBirth(s, x);
    } else {
      FreeSleep(s, x);
    }
  }

  lemma FreeBirth(s: State, x: S.Step)
    requires Inv(s) && Enabled(s, Inner(x)) && s.sw.pc[x.p].Free? && S.IsBirthOrDeath(x)
    ensures StatusOk(Apply(s, Inner(x)), x.p)
  {
    hide S.Inv, SleepersOk, S.HoldsNone, S.HoldsOnly, S.ApplySleep;
    assert StatusOk(s, x.p);
    if x.ExitMark? { OnlyHeld(s.sw, x); }
  }

  lemma FreeSleep(s: State, x: S.Step)
    requires Inv(s) && Enabled(s, Inner(x)) && s.sw.pc[x.p].Free? && !S.IsBirthOrDeath(x)
    ensures StatusOk(Apply(s, Inner(x)), x.p)
  {
    hide S.Inv, SleepersOk, S.HoldsNone, S.HoldsOnly, S.ApplyBirth;
    assert StatusOk(s, x.p);
    if x.Schedule? { S.OffCpu(s.sw, x.p); }
    if x.CallSleep? { OnlyHeld(s.sw, x); }
  }

  lemma OnlyHeld(sw: S.State, x: S.Step)
    requires S.ShapeOk(sw) && S.Enabled(sw, x) && (x.ExitMark? || x.CallSleep?)
    ensures x.al in sw.locks && sw.locks[x.al] == x.p
  {
  }

  lemma SleepStatus(s: State, x: S.Step)
    requires Inv(s) && Enabled(s, Inner(x)) && s.who[x.p].InSleep?
    ensures StatusOk(Apply(s, Inner(x)), x.p)
  {
    hide S.Inv, S.Apply, SleepersOk, S.HoldsNone, S.HoldsOnly, S.CanYield;
    assert StatusOk(s, x.p);
    BusySpin(s, x);
    SleeperPc(s.sw, x);
  }

  /** Who sleeps on the lock goes on to sleep on it until the spinlock is taken again. */
  lemma SleeperPc(sw: S.State, x: S.Step)
    requires S.ShapeOk(sw) && S.Enabled(sw, x) && SleepsHere(sw.pc[x.p])
    requires x.Schedule? ==> sw.pc[x.p].Ready? || sw.pc[x.p].Asleep? || sw.pc[x.p].Empty?
    ensures !x.Acquire? && !x.Release? && !x.CallSleep? && !x.CallWakeup? && !x.ExitMark? && !x.WakeDone?
    ensures !x.ExitRelease?
    ensures var pc, pc' := sw.pc[x.p], S.Apply(sw, x).pc[x.p];
            && (if x.SleepRelock? then pc.SleepBack? && pc.l == LK && pc'.Free? else SleepsHere(pc'))
            && (pc'.SleepWant? || pc'.SleepBoth? ==> (pc.SleepWant? || pc.SleepBoth?) && !x.SleepRelease?)
  {
    hide S.HoldsNone, S.HoldsOnly, S.ApplyBirth;
  }

  lemma BusyStatus(s: State, x: S.Step)
    requires Inv(s) && Enabled(s, Inner(x)) && !s.sw.pc[x.p].Free? && !s.who[x.p].InSleep?
    ensures StatusOk(Apply(s, Inner(x)), x.p)
  {
    hide S.Inv, S.Enabled, S.Apply, SleepersOk;
    BusySpin(s, x);
    assert StatusOk(s, x.p);
    if S.IsBirthOrDeath(x) {
      BirthPc(s.sw, x);
    } else {
      BusyPc(s.sw, x);
    }
  }

  /** What a step makes of where a process stands with respect to the lock. */
  ghost predicate SameStand(pc: S.Pc, pc': S.Pc, done: bool) {
    && (WakesHere(pc') <==> WakesHere(pc) && !done)
    && (done && WakesHere(pc) ==> pc'.Free?)
    && (WakesHere(pc') ==> pc'.c == pc.c)
    && (SleepsHere(pc') ==> SleepsHere(pc))
    && (pc'.Empty? || pc'.ExitSet? || pc'.ExitOne? ==> pc.Empty? || pc.ExitSet? || pc.ExitOne?)
  }

  lemma BusyPc(sw: S.State, x: S.Step)
    requires S.ShapeOk(sw) && S.Enabled(sw, x) && !sw.pc[x.p].Free? && !S.IsBirthOrDeath(x)
    requires x.Schedule? ==> sw.pc[x.p].Ready? || sw.pc[x.p].Asleep? || sw.pc[x.p].Empty?
    ensures !x.Acquire? && !x.Release? && !x.CallSleep? && !x.CallWakeup? && (x.SleepRelock? ==> sw.pc[x.p].SleepBack?)
    ensures SameStand(sw.pc[x.p], S.Apply(sw, x).pc[x.p], x.WakeDone?)
  {
    hide S.HoldsNone, S.HoldsOnly, S.ApplyBirth;
  }

  lemma BirthPc(sw: S.State, x: S.Step)
    requires S.ShapeOk(sw) && S.Enabled(sw, x) && !sw.pc[x.p].Free? && S.IsBirthOrDeath(x)
    ensures SameStand(sw.pc[x.p], S.Apply(sw, x).pc[x.p], x.WakeDone?)
  {
    hide S.HoldsNone, S.HoldsOnly, S.ApplySleep;
  }

  /** In sleep the spinlock goes and comes back; elsewhere it stays. */
  lemma BusySpin(s: State, x: S.Step)
    requires Inv(s) && Enabled(s, Inner(x)) && !s.sw.pc[x.p].Free?
    ensures x.p < |s.who|
    ensures HoldsSpin(Apply(s, Inner(x)), x.p) ==
              if x.SleepRelock? && s.sw.pc[x.p].l == LK then true
              else HoldsSpin(s, x.p) && !((x.SleepRelease? || x.ExitRelease?) && s.sw.pc[x.p].l == LK)
    ensures s.sw.pc[x.p].ExitSet? ==> s.sw.pc[x.p].l != LK
    ensures x.Schedule? ==> s.sw.pc[x.p].Ready? || s.sw.pc[x.p].Asleep? || s.sw.pc[x.p].Empty?
    ensures WakesHere(s.sw.pc[x.p]) ==> HoldsSpin(s, x.p)
  {
    hide S.CpuOk, S.StateOk, S.WakeOk, S.ForkOk, S.PlockOk, S.HoldsNone, SleepersOk;
    assert StatusOk(s, x.p) && S.LockOk(s.sw, x.p);
    if x.Schedule? { S.OffCpu(s.sw, x.p); }
  }

  lemma OtherStatus(s: State, x: S.Step, p: Pid)
    requires Inv(s) && Enabled(s, Inner(x)) && p < |s.who| && x.p != p
    ensures StatusOk(Apply(s, Inner(x)), p)
  {
    hide S.Inv, S.Enabled, S.Apply, SleepersOk;
    OtherPc(s, x, p);
    assert StatusOk(s, p);
  }

  /** A step of another process moves nobody but a new one, and takes no spinlock away. */
  lemma OtherPc(s: State, x: S.Step, p: Pid)
    requires Inv(s) && Enabled(s, Inner(x)) && p < |s.who| && x.p != p
    ensures var t := Apply(s, Inner(x));
            && (t.sw.pc[p] == s.sw.pc[p] || (s.sw.pc[p].Empty? && t.sw.pc[p] == S.Ready(S.ToFree)))
            && HoldsSpin(t, p) == HoldsSpin(s, p)
  {
    hide S.CpuOk, S.StateOk, S.WakeOk, S.ForkOk, S.PlockOk, S.HoldsNone, SleepersOk, StatusOk;
    assert S.LockOk(s.sw, x.p);
    if x.ForkDone? { S.BornOffCpu(s.sw, x.p); }
  }

  lemma StepSleepers(s: State, x: S.Step)
    requires Inv(s) && Enabled(s, Inner(x))
    ensures SleepersOk(Apply(s, Inner(x)))
  {
    hide S.Inv, S.Enabled, S.Apply, S.Committed, StatusOk;
    var t := Apply(s, Inner(x));
    if !s.locked && !WakeupDue(t) {
      forall p: nat | p < |t.who| ensures !S.Committed(t.sw, p, CH, LK) {
        S.NewSleeper(s.sw, x, p, CH, LK);
        StillFree(s, x, p);
      }
    }
  }

  /** As long as the wakeup is due, or once it is done, the lock is free and nobody commits. */
  lemma StillFree(s: State, x: S.Step, p: Pid)
    requires Inv(s) && Enabled(s, Inner(x)) && p < |s.who| && !s.locked && !WakeupDue(Apply(s, Inner(x)))
    ensures !(x == S.SleepRelease(p) && s.sw.pc[p] == S.SleepBoth(CH, LK)) && !S.Committed(s.sw, p, CH, LK)
  {
    hide S.CpuOk, S.StateOk, S.WakeOk, S.ForkOk, S.PlockOk, S.HoldsNone, S.Committed;
    assert StatusOk(s, p);
    if WakeupDue(s) {
      var w := s.sw.locks[LK];
      assert StatusOk(s, w) && StatusOk(s, x.p) && S.LockOk(s.sw, x.p);
      assert x == S.WakeDone(w);
      S.WakeDoneOk(s.sw, w, p);
    }
  }

  lemma StepInv(s: State, step: Step)
    requires Inv(s) && Enabled(s, step)
    ensures Inv(Apply(s, step))
  {
    hide S.Inv, S.Enabled, S.Apply, S.Committed, StatusOk, SleepersOk;
    match step
    case Inner(x) =>
      S.StepInv(s.sw, x);
      StepSleepers(s, x);
      forall p: nat | p < |s.who| ensures StatusOk(Apply(s, step), p) { StepStatus(s, x, p); }
    case Take(p) => TakeInv(s, p);
    case Drop(p) => DropInv(s, p);
  }

  lemma TakeInv(s: State, p: Pid)
    requires Inv(s) && Enabled(s, Take(p))
    ensures Inv(Apply(s, Take(p)))
  {
    hide S.Inv, S.Committed;
    var t := Apply(s, Take(p));
    forall q: nat | q < |t.who| ensures StatusOk(t, q) { assert StatusOk(s, q) && StatusOk(s, p); }
  }

  lemma DropInv(s: State, p: Pid)
    requires Inv(s) && Enabled(s, Drop(p))
    ensures Inv(Apply(s, Drop(p)))
  {
    hide S.Inv, S.Committed;
    var t := Apply(s, Drop(p));
    assert StatusOk(s, p);
    forall q: nat | q < |t.who| ensures StatusOk(t, q) {
      assert StatusOk(s, q);
      if q != p { NotHeldBoth(s, p, q); }
    }
  }

  /** While one process holds the spinlock, no other one is about to sleep. */
  lemma NotHeldBoth(s: State, p: Pid, q: Pid)
    requires Inv(s) && p < |s.who| && q < |s.who| && HoldsSpin(s, p) && q != p
    ensures !((s.sw.pc[q].SleepWant? || s.sw.pc[q].SleepBoth?) && s.sw.pc[q].l == LK)
  {
    hide S.CpuOk, S.StateOk, S.WakeOk, S.ForkOk, S.PlockOk, S.HoldsNone;
    assert S.LockOk(s.sw, q);
  }

  // ------------------------------------------------------------ runs

  predicate CanRun(s: State, steps: seq<Step>)
    requires ShapeOk(s)
    decreases |steps|
  {
    steps == [] || (Enabled(s, steps[0]) && CanRun(Apply(s, steps[0]), steps[1..]))
  }

  function RunTo(s: State, steps: seq<Step>): (t: State)
    requires ShapeOk(s) && CanRun(s, steps)
    ensures ShapeOk(t) && |t.who| == |s.who|
    decreases |steps|
  {
    if steps == [] then s else RunTo(Apply(s, steps[0]), steps[1..])
  }

  lemma {:induction false} RunInv(s: State, steps: seq<Step>)
    requires ShapeOk(s) && Inv(s) && CanRun(s, steps)
    ensures Inv(RunTo(s, steps))
    decreases |steps|
  {
    hide Inv, Enabled, Apply;
    if steps != [] {
      StepInv(s, steps[0]);
      RunInv(Apply(s, steps[0]), steps[1..]);
    }
  }

  /** initsleeplock. */
  ghost predicate Init(s: State) {
    ShapeOk(s) && S.Init(s.sw) && !s.locked && forall p: nat :: p < |s.who| ==> s.who[p].Out?
  }

  lemma InitInv(s: State)
    requires Init(s)
    ensures Inv(s)
  {
    hide S.Inv;
    S.InitInv(s.sw);
  }

  /** In every run at most one process has the lock, holdingsleep is true of it and of nobody else,
      and whoever is asleep on the lock while its spinlock is free can count on the holder to wake
      it: sleep and wakeup lose nobody. */
  lemma Exclusion(s: State, steps: seq<Step>, p: Pid, q: Pid)
    requires Init(s) && CanRun(s, steps) && p < |s.who| && q < |s.who|
    ensures var t := RunTo(s, steps);
            && (HasLock(t.who[p]) && HasLock(t.who[q]) ==> p == q)
            && (HasLock(t.who[p]) <==> Holding(t, p))
            && (S.Committed(t.sw, p, CH, LK) && LK !in t.sw.locks ==>
                 t.locked && t.pid < |t.who| && t.who[t.pid].Holder?)
  {
    hide RunTo, CanRun, S.Inv, S.Committed;
    InitInv(s);
    RunInv(s, steps);
    var t := RunTo(s, steps);
    assert StatusOk(t, p) && StatusOk(t, q);
    if t.locked { assert StatusOk(t, t.pid); }
  }
}
