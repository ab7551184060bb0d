/** kernel/pipe.c: the ring buffer with its wrapping counters, and what readers and writers do
    while they hold the pipe's lock. */
module PipeCode {
  import opened Base

  /** nread and nwrite are 32-bit counters. */
  datatype Pipe = Pipe(data: seq<byte>, nread: nat, nwrite: nat, readopen: bool, writeopen: bool)

  /** All bytes ever written are the bytes consumed followed by the bytes in the ring, whatever
      the counters have wrapped to. */
  ghost predicate PipeOk(p: Pipe, written: seq<byte>, consumed: seq<byte>) {
    && |p.data| == 512
    && p.nread == |consumed| % 0x1_0000_0000 && p.nwrite == |written| % 0x1_0000_0000
    && |consumed| <= |written| <= |consumed| + 512
    && consumed == written[..|consumed|]
    && forall k: nat :: |consumed| <= k < |written| ==> p.data[k % 512] == written[k]
  }

  ghost function Ring(written: seq<byte>, consumed: seq<byte>): seq<byte>
    requires |consumed| <= |written|
  {
    written[|consumed|..]
  }

  /** The tests of kernel/pipe.c:88 and kernel/pipe.c:113 mean full and empty. */
  lemma CountersTell(p: Pipe, written: seq<byte>, consumed: seq<byte>)
    requires PipeOk(p, written, consumed)
    ensures p.nwrite == (p.nread + 512) % 0x1_0000_0000 <==> |written| == |consumed| + 512
    ensures p.nread == p.nwrite <==> |written| == |consumed|
    ensures p.nwrite % 512 == |written| % 512 && p.nread % 512 == |consumed| % 512
  {
  }

  lemma PipeSizes(p: Pipe, written: seq<byte>, consumed: seq<byte>)
    requires PipeOk(p, written, consumed)
    ensures |p.data| == 512 && |consumed| <= |written| <= |consumed| + 512
  {
  }

  /** pi->data[pi->nwrite++ % PIPESIZE] = ch. */
  function Put(p: Pipe, ch: byte): Pipe
    requires |p.data| == 512
  {
    p.(data := p.data[p.nwrite % 512 := ch], nwrite := (p.nwrite + 1) % 0x1_0000_0000)
  }

  /** ch = pi->data[pi->nread++ % PIPESIZE]. */
  function Take(p: Pipe): (byte, Pipe)
    requires |p.data| == 512
  {
    (p.data[p.nread % 512], p.(nread := (p.nread + 1) % 0x1_0000_0000))
  }

  lemma PutOk(p: Pipe, written: seq<byte>, consumed: seq<byte>, ch: byte)
    requires PipeOk(p, written, consumed) && |written| < |consumed| + 512 && |p.data| == 512
    ensures PipeOk(Put(p, ch), written + [ch], consumed)
    ensures Put(p, ch).readopen == p.readopen && Put(p, ch).writeopen == p.writeopen && Put(p, ch).nread == p.nread
  {
    CountersTell(p, written, consumed);
    PutKeeps(p, written, consumed, ch);
  }

  lemma PutKeeps(p: Pipe, written: seq<byte>, consumed: seq<byte>, ch: byte)
    requires PipeOk(p, written, consumed) && |written| < |consumed| + 512 && p.nwrite % 512 == |written| % 512
    ensures PipeOk(Put(p, ch), written + [ch], consumed)
  {
    Increment(|written|);
    var p', w' := Put(p, ch), written + [ch];
    forall k: nat | |consumed| <= k < |w'| ensures p'.data[k % 512] == w'[k] {
      if k < |written| { SameSlot(k, |written|); }
    }
    assert w'[..|consumed|] == written[..|consumed|];
  }

  /** Positions less than a ring apart have different slots. */
  lemma SameSlot(k: nat, n: nat)
    requires k < n < k + 512
    ensures k % 512 != n % 512
  {
  }

  lemma TakeOk(p: Pipe, written: seq<byte>, consumed: seq<byte>)
    requires PipeOk(p, written, consumed) && |consumed| < |written|
    ensures |p.data| == 512
    ensures var (ch, p') := Take(p);
            ch == written[|consumed|] && PipeOk(p', written, consumed + [ch])
  {
    CountersTell(p, written, consumed);
    hide PipeOk;
    TakeKeeps(p, written, consumed);
  }

  lemma TakeKeeps(p: Pipe, written: seq<byte>, consumed: seq<byte>)
    requires PipeOk(p, written, consumed) && |consumed| < |written| && p.nread % 512 == |consumed| % 512
    ensures p.data[p.nread % 512] == written[|consumed|]
    ensures PipeOk(Take(p).1, written, consumed + [written[|consumed|]])
  {
    Increment(|consumed|);
    assert written[..|consumed| + 1] == written[..|consumed|] + [written[|consumed|]];
  }

  lemma Increment(n: nat)
    ensures (n % 0x1_0000_0000 + 1) % 0x1_0000_0000 == (n + 1) % 0x1_0000_0000
  {
  }

  /** How a writer's hold of the lock ends: all bytes written or the source unreadable; asleep
      on a full ring; or turned away because the readers are gone or the writer is killed. */
  datatype WriteEnd = Done | Slept | Closed | Killed

  datatype ReadEnd = Copied | WaitData | KilledReader

  datatype WriteResult = WriteResult(p: Pipe, n: nat, end: WriteEnd)

  /** pipewrite's loop in one hold of the lock. `good` bytes of src can be copied in, and the
      writer is seen to be killed once `killAt` bytes are written. */
  function WriteLoop(p: Pipe, src: seq<byte>, good: nat, killAt: nat): WriteResult
    requires |p.data| == 512
    decreases |src|
  {
    if src == [] then WriteResult(p, 0, Done)
    else if !p.readopen then WriteResult(p, 0, Closed)
    else if killAt == 0 then WriteResult(p, 0, Killed)
    else if p.nwrite == (p.nread + 512) % 0x1_0000_0000 then WriteResult(p, 0, Slept)
    else if good == 0 then WriteResult(p, 0, Done)
    else
      var w := WriteLoop(Put(p, src[0]), src[1..], good - 1, killAt - 1);
      w.(n := w.n + 1)
  }

  /** One round of the loop, at position i of the source. */
  lemma WriteLoopAt(p: Pipe, src: seq<byte>, i: nat, good: nat, killAt: nat)
    requires |p.data| == 512 && i < |src|
    ensures WriteLoop(p, src[i..], good, killAt) ==
            if !p.readopen then WriteResult(p, 0, Closed)
            else if killAt == 0 then WriteResult(p, 0, Killed)
            else if p.nwrite == (p.nread + 512) % 0x1_0000_0000 then WriteResult(p, 0, Slept)
            else if good == 0 then WriteResult(p, 0, Done)
            else var w := WriteLoop(Put(p, src[i]), src[i + 1..], good - 1, killAt - 1); w.(n := w.n + 1)
  {
    assert src[i..][0] == src[i] && src[i..][1..] == src[i + 1..];
  }

  /** How many bytes a hold of the lock writes: as many as there are, as fit, as can be read, and
      as come before the kill. */
  function WriteCount(p: Pipe, src: seq<byte>, good: nat, killAt: nat, room: nat): nat {
    if p.readopen then Min(Min(|src|, killAt), Min(room, good)) else 0
  }

  function WriteEnds(p: Pipe, src: seq<byte>, good: nat, killAt: nat, room: nat): WriteEnd {
    var n := WriteCount(p, src, good, killAt, room);
    if n == |src| then Done
    else if !p.readopen then Closed
    else if n == killAt then Killed
    else if n == room then Slept
    else Done
  }

  /** The loop in closed form: the pipe gains the first bytes of src, whatever the counters are. */
  lemma {:induction false} WriteLoopIs(p: Pipe, written: seq<byte>, consumed: seq<byte>, src: seq<byte>, good: nat,
                                       killAt: nat)
    requires PipeOk(p, written, consumed)
    ensures var w, room := WriteLoop(p, src, good, killAt), 512 - (|written| - |consumed|);
            && w.n == WriteCount(p, src, good, killAt, room) <= |src| && w.end == WriteEnds(p, src, good, killAt, room)
            && PipeOk(w.p, written + src[..w.n], consumed) && w.p.readopen == p.readopen && w.p.writeopen == p.writeopen
            && w.p.nread == p.nread
    decreases |src|
  {
    hide PipeOk, Put;
    PipeSizes(p, written, consumed);
    CountersTell(p, written, consumed);
    var w := WriteLoop(p, src, good, killAt);
    if w.n == 0 {
      assert written + src[..0] == written;
    }
    if src != [] && p.readopen && killAt > 0 && |written| < |consumed| + 512 && good > 0 {
      PutOk(p, written, consumed, src[0]);
      PipeSizes(Put(p, src[0]), written + [src[0]], consumed);
      WriteLoopIs(Put(p, src[0]), written + [src[0]], consumed, src[1..], good - 1, killAt - 1);
      assert written + src[..w.n] == written + [src[0]] + src[1..][..w.n - 1];
    }
  }

  /** The bytes consumed; all but a last one whose copyout fails are delivered. */
  datatype ReadResult = ReadResult(p: Pipe, taken: seq<byte>, end: ReadEnd)

  /** piperead's copying loop, which delivers at most `room` bytes. */
  function ReadLoop(p: Pipe, n: nat, room: nat): ReadResult
    requires |p.data| == 512
    decreases n
  {
    if n == 0 || p.nread == p.nwrite then ReadResult(p, [], Copied)
    else
      var (ch, p') := Take(p);
      if room == 0 then ReadResult(p', [ch], Copied)
      else
        var r := ReadLoop(p', n - 1, room - 1);
        r.(taken := [ch] + r.taken)
  }

  /** piperead in one hold of the lock. */
  function ReadHold(p: Pipe, n: nat, room: nat, killed: bool): ReadResult
    requires |p.data| == 512
  {
    if p.nread == p.nwrite && p.writeopen then ReadResult(p, [], if killed then KilledReader else WaitData)
    else ReadLoop(p, n, room)
  }

  /** The loop in closed form: the oldest bytes leave the pipe, in order. */
  lemma {:induction false} ReadLoopIs(p: Pipe, written: seq<byte>, consumed: seq<byte>, n: nat, room: nat)
    requires PipeOk(p, written, consumed)
    ensures var r := ReadLoop(p, n, room);
            && r.taken == written[|consumed|..][..Min(n, Min(|written| - |consumed|, room + 1))] && r.end == Copied
            && PipeOk(r.p, written, consumed + r.taken) && r.p.readopen == p.readopen && r.p.writeopen == p.writeopen
    decreases n
  {
    hide PipeOk, ReadLoop;
    PipeSizes(p, written, consumed);
    CountersTell(p, written, consumed);
    ReadRound(p, n, room);
    if n == 0 || |written| == |consumed| {
      assert consumed + [] == consumed;
    } else {
      TakeOk(p, written, consumed);
      var (ch, p') := Take(p);
      FrontThenRest(written, |consumed|, n, room);
      if room > 0 {
        var r := ReadLoop(p', n - 1, room - 1);
        ReadLoopIs(p', written, consumed + [ch], n - 1, room - 1);
        assert consumed + ([ch] + r.taken) == consumed + [ch] + r.taken;
      }
    }
  }

  lemma ReadRound(p: Pipe, n: nat, room: nat)
    requires |p.data| == 512
    ensures ReadLoop(p, n, room) ==
            if n == 0 || p.nread == p.nwrite then ReadResult(p, [], Copied)
            else
              var (ch, p') := Take(p);
              if room == 0 then ReadResult(p', [ch], Copied)
              else var r := ReadLoop(p', n - 1, room - 1); r.(taken := [ch] + r.taken)
  {
  }

  lemma FrontThenRest(s: seq<byte>, c: nat, n: nat, room: nat)
    requires c < |s| && n > 0
    ensures room == 0 ==> s[c..][..Min(n, Min(|s| - c, room + 1))] == [s[c]]
    ensures room > 0 ==>
              s[c..][..Min(n, Min(|s| - c, room + 1))] ==
                [s[c]] + s[c + 1..][..Min(n - 1, Min(|s| - c - 1, room))]
  {
  }

  /** The result of a loop that has gone k rounds, by the result of the rest of it. */
  ghost predicate Behind(all: WriteResult, rest: WriteResult, k: nat) {
    all == rest.(n := rest.n + k)
  }

  lemma WriteLoopEmpty(p: Pipe, src: seq<byte>, good: nat, killAt: nat)
    requires |p.data| == 512 && src == []
    ensures WriteLoop(p, src, good, killAt) == WriteResult(p, 0, Done)
  {
  }

  lemma PutNext(p: Pipe, written: seq<byte>, consumed: seq<byte>, ch: byte)
    requires PipeOk(p, written, consumed) && |p.data| == 512 && p.nwrite != (p.nread + 512) % 0x1_0000_0000
    ensures PipeOk(Put(p, ch), written + [ch], consumed) && |Put(p, ch).data| == 512
  {
    hide PipeOk;
    PipeSizes(p, written, consumed);
    CountersTell(p, written, consumed);
    PutOk(p, written, consumed, ch);
  }

  /** The same for the reading loop. */
  ghost predicate ReadBehind(all: ReadResult, rest: ReadResult, buf: seq<byte>) {
    all == rest.(taken := buf + rest.taken)
  }

  lemma ReadStart(r: ReadResult)
    ensures ReadBehind(r, r, [])
  {
    assert [] + r.taken == r.taken;
  }

  lemma ReadLoopAt(p: Pipe, n: nat, room: nat, all: ReadResult, buf: seq<byte>)
    requires |p.data| == 512 && n > 0 && p.nread != p.nwrite && ReadBehind(all, ReadLoop(p, n, room), buf)
    ensures |Take(p).1.data| == 512
    ensures room == 0 ==> all == ReadResult(Take(p).1, buf + [Take(p).0], Copied)
    ensures room > 0 ==> ReadBehind(all, ReadLoop(Take(p).1, n - 1, room - 1), buf + [Take(p).0])
  {
    if room > 0 {
      var r := ReadLoop(Take(p).1, n - 1, room - 1);
      assert buf + ([Take(p).0] + r.taken) == buf + [Take(p).0] + r.taken;
    }
  }

  lemma ReadLoopStop(p: Pipe, n: nat, room: nat, all: ReadResult, buf: seq<byte>)
    requires |p.data| == 512 && (n == 0 || p.nread == p.nwrite) && ReadBehind(all, ReadLoop(p, n, room), buf)
    ensures all == ReadResult(p, buf, Copied)
  {
    assert buf + [] == buf;
  }

  class PipeBuffer {
    var p: Pipe
    ghost var written: seq<byte>
    ghost var consumed: seq<byte>

    ghost predicate Valid()
      reads this
    {
      PipeOk(p, written, consumed)
    }

    /** The part of pipealloc that makes the ring, in a page with any content. */
    constructor (page: seq<byte>)
      requires |page| == 512
      ensures Valid() && written == [] && consumed == [] && p.readopen && p.writeopen
    {
      p, written, consumed := Pipe(page, 0, 0, true, true), [], [];
    }

    /** pipewrite from one acquisition of the lock to the next release. */
    method WriteSection(src: seq<byte>, start: nat, good: nat, killAt: nat) returns (i: nat, end: WriteEnd)
      requires Valid() && start <= |src|
      modifies this
      ensures Valid() && start <= i <= |src| && consumed == old(consumed) && written == old(written) + src[start..i]
      ensures WriteLoop(old(p), src[start..], good, killAt) == WriteResult(p, i - start, end)
      ensures end == WriteEnds(old(p), src[start..], good, killAt, 512 - old(|Ring(written, consumed)|))
      ensures Ring(written, consumed) == old(Ring(written, consumed)) + src[start..i]
    {
      hide PipeOk, Put, WriteEnds, WriteCount, WriteLoop;
      i := start;
      end := Done;
      ghost var k := 0;
      PipeSizes(p, written, consumed);
      WriteLoopIs(p, written, consumed, src[start..], good, killAt);
      while i < |src|
        invariant Valid() && |p.data| == 512 && i == start + k <= |src| && k <= good && k <= killAt && end == Done
        invariant consumed == old(consumed) && written == old(written) + src[start..i]
        invariant Behind(WriteLoop(old(p), src[start..], good, killAt), WriteLoop(p, src[i..], good - k, killAt - k), k)
      {
        WriteLoopAt(p, src, i, good - k, killAt - k);
        CountersTell(p, written, consumed);
        if !p.readopen {
          end := Closed;
          break;
        }
        if i - start >= killAt {
          end := Killed;
          break;
        }
        if p.nwrite == (p.nread + 512) % 0x1_0000_0000 {
          end := Slept;
          break;
        }
        if i - start >= good {
          break;
        }
        PutNext(p, written, consumed, src[i]);
        p := Put(p, src[i]);
        written := written + [src[i]];
        i := i + 1;
        k := k + 1;
      }
      if i == |src| {
        assert WriteLoop(p, src[i..], good - k, killAt - k) == WriteResult(p, 0, Done) by {
          WriteLoopEmpty(p, src[i..], good - k, killAt - k);
        }
      }
      PipeSizes(p, written, consumed);
    }

    /** piperead from one acquisition of the lock to the next release. A byte whose copyout
        fails is consumed but not delivered. */
    method ReadSection(n: nat, room: nat, killed: bool) returns (buf: seq<byte>, end: ReadEnd)
      requires Valid()
      modifies this
      ensures Valid() && written == old(written)
      ensures var r := ReadHold(old(p), n, room, killed);
              r.p == p && r.end == end && consumed == old(consumed) + r.taken && buf == r.taken[..Min(|r.taken|, room)]
      ensures end == Copied ==>
                consumed == old(consumed) +
                  old(Ring(written, consumed))[..Min(n, Min(|old(Ring(written, consumed))|, room + 1))]
      ensures end != Copied <==> old(Ring(written, consumed)) == [] && p.writeopen
    {
      hide PipeOk, Take, ReadLoop, ReadBehind;
      buf := [];
      PipeSizes(p, written, consumed);
      CountersTell(p, written, consumed);
      ReadLoopIs(p, written, consumed, n, room);
      if p.nread == p.nwrite && p.writeopen {
        return buf, if killed then KilledReader else WaitData;
      }
      end := Copied;
      ghost var r := ReadLoop(p, n, room);
      ReadStart(r);
      while |buf| < n
        invariant Valid() && |p.data| == 512 && written == old(written)
        invariant |buf| <= n && |buf| <= room && consumed == old(consumed) + buf
        invariant ReadBehind(r, ReadLoop(p, n - |buf|, room - |buf|), buf)
      {
        CountersTell(p, written, consumed);
        if p.nread == p.nwrite {
          break;
        }
        PipeSizes(p, written, consumed);
        TakeOk(p, written, consumed);
        ReadLoopAt(p, n - |buf|, room - |buf|, r, buf);
        var (ch, p') := Take(p);
        p := p';
        consumed := consumed + [ch];
        if |buf| >= room {
          return;
        }
        buf := buf + [ch];
      }
      ReadLoopStop(p, n - |buf|, room - |buf|, r, buf);
    }

    /** pipeclose. Returns whether the pipe's page is freed. */
    method Close(writable: bool) returns (gone: bool)
      requires Valid()
      modifies this
      ensures Valid() && written == old(written) && consumed == old(consumed)
      ensures p.writeopen == (old(p.writeopen) && !writable) && p.readopen == (old(p.readopen) && writable)
      ensures gone <==> !p.readopen && !p.writeopen
    {
      if writable {
        p := p.(writeopen := false);
      } else {
        p := p.(readopen := false);
      }
      gone := !p.readopen && !p.writeopen;
    }
  }
}
