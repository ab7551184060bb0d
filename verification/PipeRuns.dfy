/** Readers and writers of one pipe in any interleaving (kernel/pipe.c). A step is one hold of
    the pipe's lock, on the ring itself; sleep and wakeup are taken as atomic with it. */
module PipeRuns {
  import opened Base
  import opened PipeCode

  type Pid = nat

  /** A sleeping or woken writer still has `rest` to write, a reader wants `n` bytes. */
  datatype Status =
    | Out
    | ReadSleeping(n: nat) | ReadWoken(n: nat)
    | WriteSleeping(rest: seq<byte>) | WriteWoken(rest: seq<byte>)

  /** The pipe, the history of all bytes put in and taken out, and who is inside. */
  datatype State = State(p: Pipe, written: seq<byte>, consumed: seq<byte>, who: map<Pid, Status>)

  datatype Step =
    | Write(p: Pid, src: seq<byte>, good: nat, killAt: nat)
    | Read(p: Pid, n: nat, room: nat, killed: bool)
    | Close(writable: bool)
    | Kill(p: Pid)

  ghost predicate Enabled(s: State, step: Step) {
    && |s.p.data| == 512
    && match step
       case Write(p, src, _, _) => p in s.who && (s.who[p].Out? || s.who[p] == WriteWoken(src))
       case Read(p, n, _, _) => p in s.who && (s.who[p].Out? || s.who[p] == ReadWoken(n))
       case Close(_) => true
       case Kill(p) => p in s.who
  }

  function Woken(x: Status): Status {
    match x
    case ReadSleeping(n) => ReadWoken(n)
    case WriteSleeping(rest) => WriteWoken(rest)
    case _ => x
  }

  /** wakeup(&pi->nread). */
  function WakeReaders(who: map<Pid, Status>): map<Pid, Status> {
    map p | p in who :: if who[p].ReadSleeping? then Woken(who[p]) else who[p]
  }

  /** wakeup(&pi->nwrite). */
  function WakeWriters(who: map<Pid, Status>): map<Pid, Status> {
    map p | p in who :: if who[p].WriteSleeping? then Woken(who[p]) else who[p]
  }

  ghost function Apply(s: State, step: Step): State
    requires Enabled(s, step)
  {
    match step
    case Write(p, src, good, killAt) =>
      var w := WriteLoop(s.p, src, good, killAt);
      var n := Min(w.n, |src|);
      var who := (match w.end
                  case Done => WakeReaders(s.who)[p := Out]
                  case Slept => WakeReaders(s.who)[p := WriteSleeping(src[n..])]
                  case Closed => s.who[p := Out]
                  case Killed => s.who[p := Out]);
      State(w.p, s.written + src[..n], s.consumed, who)
    case Read(p, n, room, killed) =>
      var r := ReadHold(s.p, n, room, killed);
      var who := (match r.end
                  case Copied => WakeWriters(s.who)[p := Out]
                  case WaitData => s.who[p := ReadSleeping(n)]
                  case KilledReader => s.who[p := Out]);
      State(r.p, s.written, s.consumed + r.taken, who)
    case Close(writable) =>
      if writable then s.(p := s.p.(writeopen := false), who := WakeReaders(s.who))
      else s.(p := s.p.(readopen := false), who := WakeWriters(s.who))
    case Kill(p) =>
      s.(who := s.who[p := Woken(s.who[p])])
  }

  ghost predicate Good(s: State) {
    PipeOk(s.p, s.written, s.consumed)
  }

  lemma StepGood(s: State, step: Step)
    requires Good(s) && Enabled(s, step)
    ensures Good(Apply(s, step))
  {
    match step
    case Write(p, src, good, killAt) => WriteLoopIs(s.p, s.written, s.consumed, src, good, killAt);
    case Read(p, n, room, killed) =>
      ReadLoopIs(s.p, s.written, s.consumed, n, room);
      assert s.consumed + [] == s.consumed;
    case Close(_) =>
    case Kill(_) =>
  }

  // ------------------------------------------------------------ sleepers

  predicate Empty(p: Pipe) {
    p.nread == p.nwrite
  }

  predicate Full(p: Pipe) {
    p.nwrite == (p.nread + 512) % 0x1_0000_0000
  }

  /** By the kernel's own tests, a sleeping reader has nothing to read and a writer to wait for;
      a sleeping writer has no room and a reader to wait for. */
  ghost predicate SleepersBlocked(s: State) {
    && (forall p :: p in s.who && s.who[p].ReadSleeping? ==> Empty(s.p) && s.p.writeopen)
    && (forall p :: p in s.who && s.who[p].WriteSleeping? ==> Full(s.p) && s.p.readopen)
  }

  ghost predicate ReaderSleeps(s: State) {
    exists q :: q in s.who && s.who[q].ReadSleeping?
  }

  /** A writer that is killed after its first byte and before its last one, with the bytes before
      the kill readable and no more than the ring holds. */
  predicate KilledMidway(step: Step) {
    step.Write? && 0 < step.killAt < |step.src| && step.killAt <= step.good && step.killAt <= 512
  }

  /** Exact condition: a step leaves every sleeper a reason to sleep unless a reader sleeps and a
      writer, not turned away, is killed midway: it returns without waking anyone. */
  lemma StepBlocked(s: State, step: Step)
    requires Good(s) && SleepersBlocked(s) && Enabled(s, step)
    ensures SleepersBlocked(Apply(s, step)) <==> !(ReaderSleeps(s) && s.p.readopen && KilledMidway(step))
  {
    match step
    case Write(p, src, good, killAt) => WriteBlocked(s, p, src, good, killAt);
    case Read(p, n, room, killed) => ReadBlocked(s, p, n, room, killed);
    case Close(_) =>
    case Kill(_) =>
  }

  lemma WriteBlocked(s: State, p: Pid, src: seq<byte>, good: nat, killAt: nat)
    requires Good(s) && SleepersBlocked(s) && Enabled(s, Write(p, src, good, killAt))
    ensures SleepersBlocked(Apply(s, Write(p, src, good, killAt))) <==>
            !(ReaderSleeps(s) && s.p.readopen && KilledMidway(Write(p, src, good, killAt)))
  {
    hide PipeOk, WriteLoop;
    WriteLoopIs(s.p, s.written, s.consumed, src, good, killAt);
    var w, t := WriteLoop(s.p, src, good, killAt), Apply(s, Write(p, src, good, killAt));
    Tells(s);
    StepGood(s, Write(p, src, good, killAt));
    Tells(t);
    if q :| q in s.who && s.who[q].ReadSleeping? {
      assert q != p;
      assert w.end.Killed? ==> t.who[q].ReadSleeping?;
    }
  }

  /** The tests on the counters, and what is in the ring. */
  lemma Tells(s: State)
    requires Good(s)
    ensures Empty(s.p) <==> |s.written| == |s.consumed|
    ensures Full(s.p) <==> |s.written| == |s.consumed| + 512
    ensures |s.consumed| <= |s.written| <= |s.consumed| + 512 && |s.p.data| == 512
  {
    CountersTell(s.p, s.written, s.consumed);
  }

  lemma ReadBlocked(s: State, p: Pid, n: nat, room: nat, killed: bool)
    requires Good(s) && SleepersBlocked(s) && Enabled(s, Read(p, n, room, killed))
    ensures SleepersBlocked(Apply(s, Read(p, n, room, killed)))
  {
    hide PipeOk, ReadLoop;
    ReadLoopIs(s.p, s.written, s.consumed, n, room);
    var t := Apply(s, Read(p, n, room, killed));
    Tells(s);
    StepGood(s, Read(p, n, room, killed));
    Tells(t);
  }

  // ------------------------------------------------------------ runs

  ghost predicate CanRun(s: State, steps: seq<Step>)
    decreases |steps|
  {
    steps == [] || (Enabled(s, steps[0]) && CanRun(Apply(s, steps[0]), steps[1..]))
  }

  ghost function RunTo(s: State, steps: seq<Step>): State
    requires CanRun(s, steps)
    decreases |steps|
  {
    if steps == [] then s else RunTo(Apply(s, steps[0]), steps[1..])
  }

  /** pipealloc: an empty pipe in a page with any content, open at both ends, nobody inside. */
  ghost predicate Init(s: State) {
    && |s.p.data| == 512 && s.p.nread == s.p.nwrite == 0 && s.p.readopen && s.p.writeopen
    && s.written == [] && s.consumed == [] && forall p :: p in s.who ==> s.who[p].Out?
  }

  lemma {:induction false} RunGood(s: State, steps: seq<Step>)
    requires Good(s) && CanRun(s, steps)
    ensures Good(RunTo(s, steps))
    decreases |steps|
  {
    if steps != [] {
      StepGood(s, steps[0]);
      RunGood(Apply(s, steps[0]), steps[1..]);
    }
  }

  /** In every interleaving, however often the counters wrap, the bytes that readers took out of
      the array are the first bytes that writers put in, and the ring holds the rest in order. */
  lemma PipeIsFifo(s: State, steps: seq<Step>)
    requires Init(s) && CanRun(s, steps)
    ensures var t := RunTo(s, steps);
            PipeOk(t.p, t.written, t.consumed) && t.consumed + Ring(t.written, t.consumed) == t.written
  {
    RunGood(s, steps);
  }

  lemma {:induction false} RunBlocked(s: State, steps: seq<Step>)
    requires Good(s) && SleepersBlocked(s) && CanRun(s, steps) &&
             forall i :: 0 <= i < |steps| ==> !KilledMidway(steps[i])
    ensures SleepersBlocked(RunTo(s, steps))
    decreases |steps|
  {
    if steps != [] {
      StepGood(s, steps[0]);
      StepBlocked(s, steps[0]);
      RunBlocked(Apply(s, steps[0]), steps[1..]);
    }
  }

  /** In runs in which no writer is killed midway, nobody sleeps who could go on. */
  lemma NobodySleepsInVain(s: State, steps: seq<Step>)
    requires Init(s) && CanRun(s, steps) && forall i :: 0 <= i < |steps| ==> !KilledMidway(steps[i])
    ensures SleepersBlocked(RunTo(s, steps))
  {
    RunBlocked(s, steps);
  }

  /** Otherwise it can happen: reader 0 sleeps, writer 1 writes one byte of two and is killed. */
  lemma KillCanStrandReader()
    ensures exists s, steps :: Init(s) && CanRun(s, steps) && !SleepersBlocked(RunTo(s, steps))
  {
    var s := State(Pipe(seq(512, _ => 0), 0, 0, true, true), [], [], map[0 := Out, 1 := Out]);
    var r := Read(0, 1, 1, false);
    var w := Write(1, [7, 8], 2, 1);
    var s1 := Apply(s, r);
    assert s1.who[0].ReadSleeping? && ReaderSleeps(s1);
    StepGood(s, r);
    StepBlocked(s, r);
    StepBlocked(s1, w);
    var s2 := Apply(s1, w);
    assert CanRun(s1, [w]) by { assert [w][1..] == []; assert CanRun(s2, []); }
    assert [r, w][1..] == [w];
    assert CanRun(s, [r, w]);
    assert RunTo(s1, [w]) == s2 by { assert [w][1..] == []; }
    assert RunTo(s, [r, w]) == s2;
  }
}
