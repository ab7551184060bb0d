/** The file system over the log: what a crash leaves of files (kernel/fs.c over kernel/log.c). */
module FsCrash {
  import opened Base
  import opened Blocks
  import opened LogFormat
  import L = LogMachine
  import R = LogRuns
  import LogLimits
  import opened Bitmap
  import opened Files
  import opened FileTrunc
  import opened FileData

  /** The log lies before the inodes on the same disk. */
  ghost predicate Layout(g: Geometry, sb: Super) {
    g.Valid() && Sane(sb) && g.blocks == sb.size && g.start + g.size <= sb.inodestart
  }

  /** Home blocks as the file system has them. */
  ghost predicate Shows(g: Geometry, home: map<nat, Block>, st: Files.State) {
    forall b: nat :: g.IsHome(b) && b < |st.blocks| ==> b in home && home[b] == st.blocks[b]
  }

  /** Every inode has been written back, as iupdate leaves it. */
  ghost predicate AllSynced(sb: Super, st: Files.State)
    requires ShapeOk(sb, st)
  {
    forall n: nat :: n < sb.ninodes ==> Synced(sb, st, n)
  }

  /** The file system that a disk holds, after a restart. */
  function Mounted(sb: Super, d: Bitmap.Disk): Files.State
    requires Sane(sb) && |d| == sb.size
  {
    DataStart(sb);
    Files.State(d, seq(sb.ninodes, n requires 0 <= n < sb.ninodes => GetInode(d[sb.inodestart + n])), {}, [])
  }

  /** A disk whose home blocks show a synced state holds the same files. */
  lemma SameFiles(g: Geometry, sb: Super, st: Files.State, owner: Owners, d: Bitmap.Disk, n: nat)
    requires Layout(g, sb) && FsOk(sb, st, owner) && AllSynced(sb, st) && |d| == sb.size && n < sb.ninodes
    requires forall b: nat :: sb.inodestart <= b < sb.size ==> d[b] == st.blocks[b]
    ensures ShapeOk(sb, Mounted(sb, d)) && File(sb, Mounted(sb, d), n) == File(sb, st, n)
    ensures FsOk(sb, Mounted(sb, d), owner)
  {
    hide Used, Word, GetInode;
    DataStart(sb);
    var m := Mounted(sb, d);
    forall i: nat | i < sb.ninodes ensures m.inodes[i] == st.inodes[i] {
      assert Synced(sb, st, i);
    }
    assert m.inodes == st.inodes;
    forall s | SlotOk(sb.ninodes, s) ensures Val(sb, m, s) == Val(sb, st, s) {
      SameVal(sb, st, owner, m, s);
    }
    UsedFrame(sb, st.blocks, m.blocks);
    SameState(sb, st, owner, m);
    forall p: nat | p < st.inodes[n].size ensures ByteAt(sb, m, n, p) == ByteAt(sb, st, n, p) {
      SameByte(sb, st, owner, m, n, p);
    }
  }

  lemma SameVal(sb: Super, st: Files.State, owner: Owners, m: Files.State, s: Slot)
    requires FsOk(sb, st, owner) && ShapeOk(sb, m) && m.inodes == st.inodes && SlotOk(sb.ninodes, s)
    requires forall b: nat :: sb.datastart <= b < sb.size ==> m.blocks[b] == st.blocks[b]
    ensures Val(sb, m, s) == Val(sb, st, s)
  {
    hide Used, Word, Sane;
    if s.Entry? && Val(sb, st, Indirect(s.inum)) != 0 {
      assert Val(sb, st, Indirect(s.inum)) in owner;
    }
  }

  lemma SameState(sb: Super, st: Files.State, owner: Owners, m: Files.State)
    requires FsOk(sb, st, owner) && ShapeOk(sb, m)
    requires forall s :: SlotOk(sb.ninodes, s) ==> Val(sb, m, s) == Val(sb, st, s)
    requires forall c: nat :: c < sb.size ==> (Used(sb, m.blocks, c) <==> Used(sb, st.blocks, c))
    ensures FsOk(sb, m, owner)
  {
    hide Used, Val, Sane;
  }

  lemma SameByte(sb: Super, st: Files.State, owner: Owners, m: Files.State, n: nat, p: nat)
    requires FsOk(sb, st, owner) && ShapeOk(sb, m) && n < sb.ninodes && p < 274432
    requires forall s :: SlotOk(sb.ninodes, s) ==> Val(sb, m, s) == Val(sb, st, s)
    requires forall b: nat :: sb.datastart <= b < sb.size ==> m.blocks[b] == st.blocks[b]
    ensures ByteAt(sb, m, n, p) == ByteAt(sb, st, n, p)
  {
    hide Used, Val, Sane;
    var b := Val(sb, st, SlotFor(n, p / 1024));
    if b != 0 { assert b in owner; }
  }

  // ------------------------------------------------------------ operations as log events

  /** What the last write to a block left, or what was there before. */
  function LastWrite(events: seq<R.Event>, b: nat, before: Block): Block
    decreases |events|
  {
    if events == [] then before
    else LastWrite(events[1..], b, if events[0].Write? && events[0].b == b then events[0].data else before)
  }

  lemma {:induction false} ViewIsLastWrite(a: L.Store, events: seq<R.Event>, b: nat)
    requires b in a.view && R.NoPowerLoss(events)
    ensures b in R.StoreAfter(a, events).view && R.StoreAfter(a, events).view[b] == LastWrite(events, b, a.view[b])
    decreases |events|
  {
    if events != [] {
      assert !events[0].PowerLoss?;
      match events[0]
      case Write(c, data) => ViewIsLastWrite(a.(view := a.view[c := data]), events[1..], b);
      case Commit => ViewIsLastWrite(a.(durable := a.view), events[1..], b);
    }
  }

  ghost predicate NoCrash(steps: seq<L.Step>) {
    forall i :: 0 <= i < |steps| ==> !steps[i].Crash?
  }

  lemma {:induction false} NoLossInRun(g: Geometry, s: L.State, steps: seq<L.Step>)
    requires R.CanRun(g, s, steps) && NoCrash(steps)
    ensures R.NoPowerLoss(R.Events(g, s, steps))
    decreases |steps|
  {
    if steps != [] {
      assert !steps[0].Crash?;
      NoLossInRun(g, L.Apply(g, s, steps[0]), steps[1..]);
    }
  }

  lemma {:induction false} NothingCommitted(g: Geometry, s: L.State, steps: seq<L.Step>)
    requires R.CanRun(g, s, steps) && !R.HeaderWritten(steps)
    ensures R.Committed(R.Events(g, s, steps)) == []
    decreases |steps|
  {
    hide R.Committed;
    if steps == [] {
      NoCommit([]);
    } else {
      assert !steps[0].WriteHead?;
      R.HeaderWrittenTail(steps);
      NothingCommitted(g, L.Apply(g, s, steps[0]), steps[1..]);
      var rest := R.Events(g, L.Apply(g, s, steps[0]), steps[1..]);
      NotCommitted(rest);
      NoCommit(R.Events(g, s, steps));
    }
  }

  lemma {:induction false} NoCommit(events: seq<R.Event>)
    requires forall i :: 0 <= i < |events| ==> !events[i].Commit?
    ensures R.Committed(events) == []
    decreases |events|
  {
    if events != [] { NoCommit(events[..|events| - 1]); }
  }

  lemma {:induction false} NotCommitted(events: seq<R.Event>)
    requires R.Committed(events) == []
    ensures forall i :: 0 <= i < |events| ==> !events[i].Commit?
    decreases |events|
  {
    if events != [] { NotCommitted(events[..|events| - 1]); }
  }

  /** The log_writes of a run, in order. */
  function WritesOf(events: seq<R.Event>): seq<LogEntry>
    decreases |events|
  {
    if events == [] then []
    else if events[0].Write? then [LogEntry(events[0].b, events[0].data)] + WritesOf(events[1..])
    else WritesOf(events[1..])
  }

  /** Replaying them leaves the last content of each block. */
  lemma {:induction false} ReplayIsLastWrite(d: Bitmap.Disk, events: seq<R.Event>, b: nat)
    requires b < |d|
    ensures Replay(d, WritesOf(events))[b] == LastWrite(events, b, d[b])
    decreases |events|
  {
    if events != [] {
      var rest := WritesOf(events[1..]);
      if events[0].Write? {
        var w := [LogEntry(events[0].b, events[0].data)];
        ReplayTwice(d, w, rest);
        assert w[..0] == [];
        ReplayIsLastWrite(Replay(d, w), events[1..], b);
      } else {
        ReplayIsLastWrite(d, events[1..], b);
      }
    }
  }

  /** What the log has taken in leads from the blocks of st0 to those of st1. */
  ghost predicate Carried(st0: Files.State, st1: Files.State, events: seq<R.Event>) {
    st1.blocks == Replay(st0.blocks, WritesOf(events))
  }

  /** What a write leaves in the log: its log_writes, in order, which lead to the state `clean`. If a
      copy failed and the block of the torn bytes was already in the transaction, the log takes in one
      more content of that block, before log_write number i, and leads to the state with the torn bytes. */
  lemma WriteCarried(sb: Super, st0: Files.State, clean: Files.State, st: Files.State, inum: nat, pos: nat, torn: nat,
                     events: seq<R.Event>, absorbed: bool, i: nat)
    requires ShapeOk(sb, st) && inum < sb.ninodes && Logged(st0, clean) && (absorbed ==> torn > 0) &&
             TornAt(sb, clean, st, inum, pos, torn)
    requires var ws := clean.writes[|st0.writes|..];
             if absorbed then
               var addr := Val(sb, st, SlotFor(inum, pos / 1024));
               && i <= |ws| && (forall w :: w in ws[i..] ==> w.b != addr)
               && WritesOf(events) == ws[..i] + [LogEntry(addr, st.blocks[addr])] + ws[i..]
             else WritesOf(events) == ws
    ensures Carried(st0, if absorbed then st else clean, events)
  {
    hide Val, Replay, WritesOf;
    var ws := clean.writes[|st0.writes|..];
    if absorbed {
      var addr := Val(sb, st, SlotFor(inum, pos / 1024));
      ReplayInsert(st0.blocks, ws[..i], LogEntry(addr, st.blocks[addr]), ws[i..]);
      assert ws[..i] + ws[i..] == ws;
    }
  }

  lemma {:induction false} ReplayInsert(d: Bitmap.Disk, a: seq<LogEntry>, w: LogEntry, b: seq<LogEntry>)
    requires w.b < |d| && forall x :: x in b ==> x.b != w.b
    ensures Replay(d, a + [w] + b) == Replay(d, a + b)[w.b := w.data]
    decreases |b|
  {
    if b == [] {
      assert (a + [w] + b)[..|a|] == a && a + b == a;
    } else {
      var c := b[..|b| - 1];
      forall x | x in c ensures x in b { }
      ReplayInsert(d, a, w, c);
      assert (a + [w] + b)[..|a + [w] + b| - 1] == a + [w] + c && (a + b)[..|a + b| - 1] == a + c;
      assert b[|b| - 1] in b;
    }
  }

  lemma CarriedLast(st0: Files.State, st1: Files.State, events: seq<R.Event>, b: nat)
    requires Carried(st0, st1, events) && b < |st0.blocks|
    ensures |st1.blocks| == |st0.blocks| && LastWrite(events, b, st0.blocks[b]) == st1.blocks[b]
  {
    hide Replay, LastWrite, WritesOf;
    ReplayIsLastWrite(st0.blocks, events, b);
  }

  /** What is durable after a run is what the file system code computed up to the last commit. */
  lemma DurableShows(g: Geometry, s: L.State, steps: seq<L.Step>, st0: Files.State, st1: Files.State)
    requires L.Inv(g, s) && s.phase.Running? && s.lh == [] && R.CanRun(g, s, steps) && NoCrash(steps)
    requires |st0.blocks| == |st1.blocks| && Shows(g, L.View(g, s), st0)
    requires Carried(st0, st1, R.Committed(R.Events(g, s, steps)))
    ensures L.Inv(g, R.RunTo(g, s, steps)) && DiskOk(g, R.RunTo(g, s, steps).disk)
    ensures Shows(g, Durable(g, R.RunTo(g, s, steps).disk), st1)
  {
    hide L.Inv, R.RunTo, R.CanRun, R.Events, R.StoreAfter, R.Committed, R.NoPowerLoss, L.View, L.Apply, L.Enabled,
         DiskOk, LastWrite, Carried, Durable;
    R.RunRefinesStore(g, s, steps);
    NoLossInRun(g, s, steps);
    R.GoodDisk(g, s);
    QuietDurable(g, s);
    var t := R.RunTo(g, s, steps);
    R.GoodDisk(g, t);
    var a, events := L.Abs(g, s), R.Events(g, s, steps);
    var part := R.Committed(events);
    R.DurableIsCommitted(a, events);
    forall b: nat | g.IsHome(b) && b < |st1.blocks|
      ensures b in Durable(g, t.disk) && Durable(g, t.disk)[b] == st1.blocks[b]
    {
      CarriedLast(st0, st1, part, b);
      if part == [] {
        LastOfNone(b, st0.blocks[b]);
      } else {
        ViewIsLastWrite(a, part, b);
      }
    }
  }

  lemma LastOfNone(b: nat, before: Block)
    ensures LastWrite([], b, before) == before
  {
  }

  // ------------------------------------------------------------ crash and recovery

  /** End to end: from a quiet point on, `steps` carry out any operations, in any number of
      transactions; power is lost after any part of it, and recoveries may be cut short too. The
      restarted file system holds exactly the files that the operations committed so far have made
      of those of st0. */
  lemma FilesSurviveCrash(g: Geometry, sb: Super, s: L.State, steps: seq<L.Step>, rec: seq<L.Step>,
                          st0: Files.State, owner0: Owners, st1: Files.State, owner1: Owners, n: nat)
    requires Layout(g, sb) && R.Reachable(g, s) && s.phase.Running? && s.lh == []
    requires L.Inv(g, s) && Shows(g, L.View(g, s), st0)
    requires R.CanRun(g, s, steps) && NoCrash(steps)
    requires FsOk(sb, st0, owner0) && FsOk(sb, st1, owner1) && AllSynced(sb, st1) && n < sb.ninodes
    requires Carried(st0, st1, R.Committed(R.Events(g, s, steps)))
    requires var d := R.RunTo(g, s, steps).disk;
             R.CanRun(g, L.PowerOn(d), rec) && R.NoBegin(rec) && R.RunTo(g, L.PowerOn(d), rec).phase.Running?
    ensures var d := R.RunTo(g, L.PowerOn(R.RunTo(g, s, steps).disk), rec).disk;
            |d| == sb.size && ShapeOk(sb, Mounted(sb, d)) && File(sb, Mounted(sb, d), n) == File(sb, st1, n)
  {
    hide L.Inv, R.RunTo, R.CanRun, R.Events, R.Committed, L.View, L.Apply, L.Enabled, DiskOk, Carried, R.Reachable,
         FsOk, AllSynced, Mounted, File, Durable, L.PowerOn, R.NoBegin, Homes, NoCrash;
    var t := R.RunTo(g, s, steps);
    ReachRun(g, s, steps);
    SizesAgree(sb, st0, owner0, st1, owner1);
    DurableShows(g, s, steps, st0, st1);
    R.CrashAtomicity(g, t, rec);
    var d := R.RunTo(g, L.PowerOn(t.disk), rec).disk;
    DiskShows(g, sb, d, Durable(g, t.disk), st1);
    SameFiles(g, sb, st1, owner1, d, n);
  }

  /** All or nothing: if all that is committed in the run is what took the files from st0 to st1, the
      restarted file system holds the files of st1 once a header has been written, while the
      transaction is installed, when its header is erased and ever after; and those of st0 before. */
  lemma AllOrNothing(g: Geometry, sb: Super, s: L.State, steps: seq<L.Step>, rec: seq<L.Step>,
                     st0: Files.State, owner0: Owners, st1: Files.State, owner1: Owners, n: nat)
    requires Layout(g, sb) && R.Reachable(g, s) && s.phase.Running? && s.lh == []
    requires L.Inv(g, s) && Shows(g, L.View(g, s), st0)
    requires R.CanRun(g, s, steps) && NoCrash(steps)
    requires FsOk(sb, st0, owner0) && AllSynced(sb, st0) && FsOk(sb, st1, owner1) && AllSynced(sb, st1)
    requires n < sb.ninodes && (R.HeaderWritten(steps) ==> Carried(st0, st1, R.Committed(R.Events(g, s, steps))))
    requires var d := R.RunTo(g, s, steps).disk;
             R.CanRun(g, L.PowerOn(d), rec) && R.NoBegin(rec) && R.RunTo(g, L.PowerOn(d), rec).phase.Running?
    ensures var d := R.RunTo(g, L.PowerOn(R.RunTo(g, s, steps).disk), rec).disk;
            && |d| == sb.size && ShapeOk(sb, Mounted(sb, d))
            && File(sb, Mounted(sb, d), n) == File(sb, if R.HeaderWritten(steps) then st1 else st0, n)
  {
    hide *;
    if R.HeaderWritten(steps) {
      FilesSurviveCrash(g, sb, s, steps, rec, st0, owner0, st1, owner1, n);
    } else {
      NothingCommitted(g, s, steps);
      CarriedNone(st0);
      FilesSurviveCrash(g, sb, s, steps, rec, st0, owner0, st0, owner0, n);
    }
  }

  lemma CarriedNone(st: Files.State)
    ensures Carried(st, st, [])
  {
  }

  lemma {:induction false} ReachRun(g: Geometry, s: L.State, steps: seq<L.Step>)
    requires R.Reachable(g, s) && R.CanRun(g, s, steps)
    ensures R.Reachable(g, R.RunTo(g, s, steps))
    decreases |steps|
  {
    hide R.Reachable, L.Apply, L.Enabled;
    if steps != [] {
      LogLimits.ReachStep(g, s, steps[0]);
      ReachRun(g, L.Apply(g, s, steps[0]), steps[1..]);
    }
  }

  /** A write to one file is atomic: after a crash the file is as before or has the written bytes
      spliced in, and every other file is as before. After a copy that failed midway this holds of the
      bytes writei reports, with st1 the state `clean` it has logged and torn == 0; if the log has
      taken in the torn bytes too, they overwrite what follows in the file. */
  lemma WriteIsAtomic(g: Geometry, sb: Super, s: L.State, steps: seq<L.Step>, rec: seq<L.Step>,
                      st0: Files.State, owner0: Owners, st1: Files.State, owner1: Owners,
                      inum: nat, off: nat, src: seq<byte>, tot: nat, torn: nat, n: nat)
    requires Layout(g, sb) && R.Reachable(g, s) && s.phase.Running? && s.lh == []
    requires L.Inv(g, s) && Shows(g, L.View(g, s), st0)
    requires R.CanRun(g, s, steps) && NoCrash(steps)
    requires FsOk(sb, st0, owner0) && AllSynced(sb, st0) && FsOk(sb, st1, owner1) && n < sb.ninodes
    requires R.HeaderWritten(steps) ==> Carried(st0, st1, R.Committed(R.Events(g, s, steps)))
    requires var d := R.RunTo(g, s, steps).disk;
             R.CanRun(g, L.PowerOn(d), rec) && R.NoBegin(rec) && R.RunTo(g, L.PowerOn(d), rec).phase.Running?
    requires inum < sb.ninodes && off <= st0.inodes[inum].size &&
             WriteDone(sb, st0, owner0, st1, inum, off, src, tot, torn) && Synced(sb, st1, inum)
    ensures off + tot <= |Splice(File(sb, st0, inum), off, src[..tot])|
    ensures var d := R.RunTo(g, L.PowerOn(R.RunTo(g, s, steps).disk), rec).disk;
            && |d| == sb.size && ShapeOk(sb, Mounted(sb, d))
            && File(sb, Mounted(sb, d), n) ==
               if n == inum && R.HeaderWritten(steps) then
                 Torn(Splice(File(sb, st0, inum), off, src[..tot]), off + tot, src[tot..tot + torn])
               else File(sb, st0, n)
  {
    hide *;
    WriteKeepsSynced(sb, st0, owner0, st1, owner1, inum, off, src, tot, torn);
    AllOrNothing(g, sb, s, steps, rec, st0, owner0, st1, owner1, n);
    WriteIsTorn(sb, st0, owner0, st1, inum, off, src, tot, torn);
    if n != inum { OthersSame(sb, st0, owner0, st1, owner1, inum, off, src, tot, torn, n); }
  }

  /** itrunc is atomic: after a crash the file is as before or empty, and every other file is as
      before. */
  lemma TruncIsAtomic(g: Geometry, sb: Super, s: L.State, steps: seq<L.Step>, rec: seq<L.Step>,
                      st0: Files.State, owner0: Owners, st1: Files.State, owner1: Owners, inum: nat, n: nat)
    requires Layout(g, sb) && R.Reachable(g, s) && s.phase.Running? && s.lh == []
    requires L.Inv(g, s) && Shows(g, L.View(g, s), st0)
    requires R.CanRun(g, s, steps) && NoCrash(steps)
    requires FsOk(sb, st0, owner0) && AllSynced(sb, st0) && FsOk(sb, st1, owner1) && n < sb.ninodes
    requires R.HeaderWritten(steps) ==> Carried(st0, st1, R.Committed(R.Events(g, s, steps)))
    requires var d := R.RunTo(g, s, steps).disk;
             R.CanRun(g, L.PowerOn(d), rec) && R.NoBegin(rec) && R.RunTo(g, L.PowerOn(d), rec).phase.Running?
    requires inum < sb.ninodes && st1.inodes[inum].size == 0 && OthersKept(st0, st1, owner0, inum) &&
             Synced(sb, st1, inum)
    requires HeadKept(sb, st0, st1, sb.inodestart + inum)
    ensures var d := R.RunTo(g, L.PowerOn(R.RunTo(g, s, steps).disk), rec).disk;
            && |d| == sb.size && ShapeOk(sb, Mounted(sb, d))
            && File(sb, Mounted(sb, d), n) == if n == inum && R.HeaderWritten(steps) then [] else File(sb, st0, n)
  {
    hide *;
    OthersSynced(sb, st0, owner0, st1, owner1, inum);
    AllOrNothing(g, sb, s, steps, rec, st0, owner0, st1, owner1, n);
    if n != inum { OthersRead(sb, st0, owner0, st1, owner1, inum, n); }
  }

  lemma OthersSynced(sb: Super, st0: Files.State, owner0: Owners, st1: Files.State, owner1: Owners, inum: nat)
    requires FsOk(sb, st0, owner0) && AllSynced(sb, st0) && FsOk(sb, st1, owner1) && inum < sb.ninodes
    requires OthersKept(st0, st1, owner0, inum) && HeadKept(sb, st0, st1, sb.inodestart + inum) && Synced(sb, st1, inum)
    ensures AllSynced(sb, st1)
  {
    hide ByteAt, Val, Used, GetInode;
    DataStart(sb);
    forall n: nat | n < sb.ninodes ensures Synced(sb, st1, n) {
      assert Synced(sb, st0, n);
    }
  }

  lemma OthersRead(sb: Super, st0: Files.State, owner0: Owners, st1: Files.State, owner1: Owners, inum: nat, n: nat)
    requires FsOk(sb, st0, owner0) && FsOk(sb, st1, owner1) && OthersKept(st0, st1, owner0, inum) && n < sb.ninodes &&
             n != inum
    ensures ShapeOk(sb, st0) && ShapeOk(sb, st1) && File(sb, st1, n) == File(sb, st0, n)
  {
    hide ByteAt, Val, Used;
    OtherFile(sb, st0, st1, owner0, inum, n);
  }

  /** writei leaves every inode written back: its own by iupdate, the others untouched. */
  lemma WriteKeepsSynced(sb: Super, st0: Files.State, owner0: Owners, st1: Files.State, owner1: Owners, inum: nat,
                         off: nat, src: seq<byte>, tot: nat, torn: nat)
    requires FsOk(sb, st0, owner0) && AllSynced(sb, st0) && FsOk(sb, st1, owner1)
    requires WriteDone(sb, st0, owner0, st1, inum, off, src, tot, torn) && Synced(sb, st1, inum)
    ensures AllSynced(sb, st1)
  {
    hide ByteAt, Val, Used, GetInode, NoHoles, Synced, AllSynced;
    OthersSynced(sb, st0, owner0, st1, owner1, inum);
  }

  lemma OthersSame(sb: Super, st0: Files.State, owner0: Owners, st1: Files.State, owner1: Owners, inum: nat, off: nat,
                   src: seq<byte>, tot: nat, torn: nat, n: nat)
    requires FsOk(sb, st0, owner0) && FsOk(sb, st1, owner1)
    requires WriteDone(sb, st0, owner0, st1, inum, off, src, tot, torn)
    requires n < sb.ninodes && n != inum
    ensures ShapeOk(sb, st0) && ShapeOk(sb, st1) && File(sb, st1, n) == File(sb, st0, n)
  {
    hide ByteAt, Val, Used, NoHoles;
    OthersRead(sb, st0, owner0, st1, owner1, inum, n);
  }

  lemma SizesAgree(sb: Super, st0: Files.State, owner0: Owners, st1: Files.State, owner1: Owners)
    requires FsOk(sb, st0, owner0) && FsOk(sb, st1, owner1)
    ensures |st0.blocks| == |st1.blocks| == sb.size
  {
  }

  /** With nothing logged, what readers see is what a crash would leave. */
  lemma QuietDurable(g: Geometry, s: L.State)
    requires L.Inv(g, s) && s.phase.Running? && s.lh == [] && DiskOk(g, s.disk)
    ensures Durable(g, s.disk) == L.View(g, s)
  {
    EmptyHeaderDurable(g, s.disk);
  }

  lemma DiskShows(g: Geometry, sb: Super, d: Bitmap.Disk, home: map<nat, Block>, st: Files.State)
    requires Layout(g, sb) && |d| == g.blocks && Homes(g, d) == home && Shows(g, home, st) && |st.blocks| == sb.size
    ensures forall b: nat :: sb.inodestart <= b < sb.size ==> d[b] == st.blocks[b]
  {
    forall b: nat | sb.inodestart <= b < sb.size ensures d[b] == st.blocks[b] {
      assert g.IsHome(b);
      assert Homes(g, d)[b] == d[b];
    }
  }
}
