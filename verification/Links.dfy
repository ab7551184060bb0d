/** kernel/sysfile.c and kernel/fs.c: directory entries and link counts. */
module Links {
  const ROOT: nat := 1

  /** A directory entry; inum 0 marks an empty one. */
  datatype Ent = Ent(name: string, inum: nat)

  datatype Kind = Free | Plain | Dir

  /** nlink is a short. */
  type short = x: int | -32768 <= x <= 32767

  /** A number stored in a short. */
  function Short(n: int): short {
    (n + 32768) % 65536 - 32768
  }

  lemma ShortIs(n: int)
    ensures -32768 <= n <= 32767 ==> Short(n) == n
    ensures Short(32768) == -32768
  {
  }

  /** The fields of an inode that matter to link counts; `ents` is a directory's content. */
  datatype Inode = Inode(kind: Kind, nlink: short, ents: seq<Ent>)

  /** A directory whose entries count: one that still has a name. */
  predicate Live(x: Inode) {
    x.kind == Dir && x.nlink >= 1
  }

  // ------------------------------------------------------------ counting names

  /** An entry other than "." that names inode i. */
  predicate Names(e: Ent, i: nat) {
    e.inum == i && e.name != "."
  }

  function CountIn(ents: seq<Ent>, i: nat): nat {
    if ents == [] then 0 else CountIn(ents[..|ents| - 1], i) + if Names(ents[|ents| - 1], i) then 1 else 0
  }

  /** How often an inode's entries name inode i. */
  function Weight(x: Inode, i: nat): nat {
    if Live(x) then CountIn(x.ents, i) else 0
  }

  function Count(ino: seq<Inode>, i: nat): nat {
    if ino == [] then 0 else Count(ino[..|ino| - 1], i) + Weight(ino[|ino| - 1], i)
  }

  lemma {:induction false} CountSet(ents: seq<Ent>, k: nat, e: Ent, i: nat)
    requires k < |ents|
    ensures CountIn(ents[k := e], i) + (if Names(ents[k], i) then 1 else 0) == CountIn(ents, i) + if Names(e, i) then 1
            else 0
    decreases |ents|
  {
    var n := |ents| - 1;
    var ents' := ents[k := e];
    if k == n {
      assert ents'[..n] == ents[..n];
    } else {
      assert ents'[..n] == ents[..n][k := e];
      CountSet(ents[..n], k, e, i);
    }
  }

  lemma CountAppend(ents: seq<Ent>, e: Ent, i: nat)
    ensures CountIn(ents + [e], i) == CountIn(ents, i) + if Names(e, i) then 1 else 0
  {
    assert (ents + [e])[..|ents|] == ents;
  }

  lemma {:induction false} CountUpdate(ino: seq<Inode>, d: nat, x: Inode, i: nat)
    requires d < |ino|
    ensures Count(ino[d := x], i) + Weight(ino[d], i) == Count(ino, i) + Weight(x, i)
    decreases |ino|
  {
    var n := |ino| - 1;
    var ino' := ino[d := x];
    if d == n {
      assert ino'[..n] == ino[..n];
    } else {
      assert ino'[..n] == ino[..n][d := x];
      CountUpdate(ino[..n], d, x, i);
    }
  }

  /** Every link count is the number of names in live directories. */
  ghost predicate CountsOk(ino: seq<Inode>) {
    forall i: nat :: 0 < i < |ino| ==> ino[i].nlink == Count(ino, i)
  }

  // ------------------------------------------------------------ the directory tree

  /** A directory begins with "." and ".."; no later entry has those names. */
  predicate DirShape(x: Inode, d: nat) {
    && |x.ents| >= 2 && x.ents[0] == Ent(".", d) && x.ents[1].name == ".."
    && forall k :: 2 <= k < |x.ents| && x.ents[k].inum != 0 ==> x.ents[k].name != "." && x.ents[k].name != ".."
  }

  /** isdirempty: nothing after "." and "..". */
  predicate EmptyDir(x: Inode) {
    forall k :: 2 <= k < |x.ents| ==> x.ents[k].inum == 0
  }

  /** Where a directory's one name is: the directory and the slot. */
  type Homes = map<nat, (nat, nat)>

  /** The name of directory d, and its way back. */
  ghost predicate HomeOk(ino: seq<Inode>, home: Homes, d: nat)
    requires d in home
  {
    var (p, k) := home[d];
    && 0 < d < |ino| && d != ROOT && p != d && Live(ino[d]) && 0 < p < |ino| && Live(ino[p]) && 2 <= k < |ino[p].ents|
    && ino[p].ents[k].inum == d && |ino[d].ents| >= 2 && ino[d].ents[1].inum == p
  }

  /** A live entry that names a directory is that directory's home. */
  ghost predicate EntryOk(ino: seq<Inode>, home: Homes, p: nat, k: nat)
    requires p < |ino| && k < |ino[p].ents|
  {
    var d := ino[p].ents[k].inum;
    Live(ino[p]) ==> d < |ino| && (2 <= k && 0 < d && ino[d].kind == Dir ==> d in home && home[d] == (p, k))
  }

  ghost predicate RootOk(ino: seq<Inode>) {
    |ino| >= 2 && Live(ino[ROOT]) && |ino[ROOT].ents| >= 2 && ino[ROOT].ents[1].inum == ROOT
  }

  /** A directory that has lost its name is empty; it still has a way back, to whatever is there. */
  ghost predicate Nameless(ino: seq<Inode>, d: nat)
    requires d < |ino|
  {
    |ino[d].ents| >= 2 && EmptyDir(ino[d]) && 0 < ino[d].ents[1].inum < |ino| && ino[d].ents[1].inum != d
  }

  ghost predicate DirOk(ino: seq<Inode>, home: Homes, d: nat)
    requires d < |ino|
  {
    && (ino[d].kind == Dir ==> DirShape(ino[d], d) && d != 0)
    && (Live(ino[d]) && d != ROOT ==> d in home)
    && (ino[d].kind == Dir && !Live(ino[d]) ==> Nameless(ino, d))
    && (ino[d].kind == Free ==> ino[d] == Inode(Free, 0, []))
    && (ino[d].kind == Plain ==> ino[d].ents == [])
  }

  ghost predicate DirsOk(ino: seq<Inode>, home: Homes) {
    forall d: nat :: d < |ino| ==> DirOk(ino, home, d)
  }

  ghost predicate HomesOk(ino: seq<Inode>, home: Homes) {
    forall d :: d in home ==> HomeOk(ino, home, d)
  }

  ghost predicate EntriesOk(ino: seq<Inode>, home: Homes) {
    forall p: nat, k: nat :: p < |ino| && k < |ino[p].ents| ==> EntryOk(ino, home, p, k)
  }

  ghost predicate TreeOk(ino: seq<Inode>, home: Homes) {
    RootOk(ino) && DirsOk(ino, home) && HomesOk(ino, home) && EntriesOk(ino, home)
  }

  ghost predicate Inv(ino: seq<Inode>, home: Homes) {
    CountsOk(ino) && TreeOk(ino, home)
  }

  // ------------------------------------------------------------ entries placed and erased

  /** dirlink's write at slot k: over an empty entry, or one past the end. */
  function Placed(ents: seq<Ent>, k: nat, e: Ent): seq<Ent>
    requires k <= |ents|
  {
    if k < |ents| then ents[k := e] else ents + [e]
  }

  lemma CountPlaced(ents: seq<Ent>, k: nat, e: Ent, i: nat)
    requires k <= |ents| && (k < |ents| ==> ents[k].inum == 0) && i > 0
    ensures CountIn(Placed(ents, k, e), i) == CountIn(ents, i) + if Names(e, i) then 1 else 0
  {
    if k < |ents| { CountSet(ents, k, e, i); } else { CountAppend(ents, e, i); }
  }

  lemma CountErased(ents: seq<Ent>, k: nat, i: nat)
    requires k < |ents| && i > 0
    ensures CountIn(ents[k := Ent("", 0)], i) + (if Names(ents[k], i) then 1 else 0) == CountIn(ents, i)
  {
    CountSet(ents, k, Ent("", 0), i);
  }

  lemma {:induction false} CountInMember(ents: seq<Ent>, k: nat, i: nat)
    requires k < |ents| && Names(ents[k], i)
    ensures CountIn(ents, i) >= 1
    decreases |ents|
  {
    if k < |ents| - 1 { CountInMember(ents[..|ents| - 1], k, i); }
  }

  lemma {:induction false} CountInNone(ents: seq<Ent>, i: nat)
    requires forall k :: 0 <= k < |ents| ==> !Names(ents[k], i)
    ensures CountIn(ents, i) == 0
    decreases |ents|
  {
    if ents != [] { CountInNone(ents[..|ents| - 1], i); }
  }

  lemma {:induction false} CountInOne(ents: seq<Ent>, k: nat, i: nat)
    requires k < |ents| && Names(ents[k], i) && forall j :: 0 <= j < |ents| && j != k ==> !Names(ents[j], i)
    ensures CountIn(ents, i) == 1
    decreases |ents|
  {
    if k == |ents| - 1 { CountInNone(ents[..|ents| - 1], i); } else { CountInOne(ents[..|ents| - 1], k, i); }
  }

  lemma {:induction false} CountZero(ino: seq<Inode>, i: nat)
    requires forall d :: 0 <= d < |ino| ==> Weight(ino[d], i) == 0
    ensures Count(ino, i) == 0
    decreases |ino|
  {
    if ino != [] { CountZero(ino[..|ino| - 1], i); }
  }

  lemma {:induction false} CountOnly(ino: seq<Inode>, p: nat, i: nat)
    requires p < |ino| && forall d :: 0 <= d < |ino| && d != p ==> Weight(ino[d], i) == 0
    ensures Count(ino, i) == Weight(ino[p], i)
    decreases |ino|
  {
    if p == |ino| - 1 { CountZero(ino[..|ino| - 1], i); } else { CountOnly(ino[..|ino| - 1], p, i); }
  }

  lemma {:induction false} CountAtLeast(ino: seq<Inode>, p: nat, i: nat)
    requires p < |ino|
    ensures Count(ino, i) >= Weight(ino[p], i)
    decreases |ino|
  {
    if p < |ino| - 1 { CountAtLeast(ino[..|ino| - 1], p, i); }
  }

  lemma {:induction false} CountAtLeastTwo(ino: seq<Inode>, p: nat, q: nat, i: nat)
    requires p < q < |ino|
    ensures Count(ino, i) >= Weight(ino[p], i) + Weight(ino[q], i)
    decreases |ino|
  {
    if q == |ino| - 1 { CountAtLeast(ino[..|ino| - 1], p, i); } else { CountAtLeastTwo(ino[..|ino| - 1], p, q, i); }
  }

  // ------------------------------------------------------------ a name is added

  /** Slot k of directory dp is free for the name. */
  ghost predicate CanPlace(ino: seq<Inode>, dp: nat, k: nat, name: string) {
    && 0 < dp < |ino| && ino[dp].kind == Dir && 2 <= k <= |ino[dp].ents| &&
       (k < |ino[dp].ents| ==> ino[dp].ents[k].inum == 0)
    && name != "." && name != ".."
  }

  /** The directory is one whose entries count, and its own count can take `extra`. */
  ghost predicate CanName(ino: seq<Inode>, dp: nat, k: nat, name: string, extra: nat) {
    CanPlace(ino, dp, k, name) && Live(ino[dp]) && ino[dp].nlink + extra <= 32767
  }

  /** The state after one inode i has changed to x and directory dp has one more name for it and
      `extra` more links. */
  function Named(ino: seq<Inode>, i: nat, x: Inode, dp: nat, k: nat, name: string, extra: nat): seq<Inode>
    requires i < |ino| && dp < |ino| && k <= |ino[dp].ents|
  {
    ino[i := x][dp := Inode(ino[dp].kind, Short(ino[dp].nlink + extra), Placed(ino[dp].ents, k, Ent(name, i)))]
  }

  lemma NamedCount(ino: seq<Inode>, i: nat, x: Inode, dp: nat, k: nat, name: string, extra: nat, j: nat)
    requires CanName(ino, dp, k, name, extra) && 0 < i < |ino| && i != dp && j > 0
    ensures Count(Named(ino, i, x, dp, k, name, extra), j) + Weight(ino[i], j) ==
            Count(ino, j) + Weight(x, j) + if j == i then 1 else 0
  {
    hide Count, CountIn;
    CountUpdate(ino, i, x, j);
    CountPlaced(ino[dp].ents, k, Ent(name, i), j);
    CountUpdate(ino[i := x], dp,
      Inode(ino[dp].kind, Short(ino[dp].nlink + extra), Placed(ino[dp].ents, k, Ent(name, i))), j);
  }

  /** A name for something that is not a directory. */
  lemma NamePlain(ino: seq<Inode>, home: Homes, i: nat, nlink: short, dp: nat, k: nat, name: string)
    requires Inv(ino, home) && CanName(ino, dp, k, name, 0) && 0 < i < |ino|
    requires (ino[i].kind == Plain && nlink == ino[i].nlink + 1) || (ino[i].kind == Free && nlink == 1)
    ensures i != dp && Inv(Named(ino, i, Inode(Plain, nlink, []), dp, k, name, 0), home)
  {
    hide Count, CountIn;
    var x := Inode(Plain, nlink, []);
    assert DirOk(ino, home, i);
    var ino' := Named(ino, i, x, dp, k, name, 0);
    forall j: nat | 0 < j < |ino'| ensures ino'[j].nlink == Count(ino', j) {
      NamedCount(ino, i, x, dp, k, name, 0, j);
    }
    NamePlainTree(ino, home, i, nlink, dp, k, name);
  }

  lemma NamePlainTree(ino: seq<Inode>, home: Homes, i: nat, nlink: short, dp: nat, k: nat, name: string)
    requires TreeOk(ino, home) && CanName(ino, dp, k, name, 0) && 0 < i < |ino| && ino[i].kind != Dir
    ensures TreeOk(Named(ino, i, Inode(Plain, nlink, []), dp, k, name, 0), home)
  {
    hide DirOk, HomeOk, EntryOk, Placed;
    var ino' := Named(ino, i, Inode(Plain, nlink, []), dp, k, name, 0);
    PlacedKeeps(ino[dp].ents, k, Ent(name, i));
    forall d: nat | d < |ino'| ensures DirOk(ino', home, d) {
      assert DirOk(ino, home, d);
      NamedDir(ino, home, i, Inode(Plain, nlink, []), dp, k, name, 0, d);
    }
    forall d | d in home ensures HomeOk(ino', home, d) {
      assert HomeOk(ino, home, d);
      NamedHome(ino, home, i, Inode(Plain, nlink, []), dp, k, name, 0, d);
    }
    forall p: nat, m: nat | p < |ino'| && m < |ino'[p].ents| ensures EntryOk(ino', home, p, m) {
      if p != i && m < |ino[p].ents| { assert EntryOk(ino, home, p, m); }
      NamedEntry(ino, home, i, nlink, dp, k, name, p, m);
    }
  }

  /** Entries other than the one placed stay. */
  lemma PlacedKeeps(ents: seq<Ent>, k: nat, e: Ent)
    requires k <= |ents|
    ensures |Placed(ents, k, e)| >= |ents| && |Placed(ents, k, e)| > k && Placed(ents, k, e)[k] == e
    ensures forall m :: 0 <= m < |ents| && m != k ==> Placed(ents, k, e)[m] == ents[m]
    ensures |Placed(ents, k, e)| == if k < |ents| then |ents| else |ents| + 1
  {
  }

  lemma NamedDir(ino: seq<Inode>, home: Homes, i: nat, x: Inode, dp: nat, k: nat, name: string, extra: nat, d: nat)
    requires CanName(ino, dp, k, name, extra) && 0 < i < |ino| && i != dp && x.kind == Plain && x.ents == [] &&
             d < |ino| && DirOk(ino, home, d)
    ensures DirOk(Named(ino, i, x, dp, k, name, extra), home, d)
  {
    PlacedKeeps(ino[dp].ents, k, Ent(name, i));
    hide Placed;
  }

  lemma NamedHome(ino: seq<Inode>, home: Homes, i: nat, x: Inode, dp: nat, k: nat, name: string, extra: nat, d: nat)
    requires CanName(ino, dp, k, name, extra) && 0 < i < |ino| && i != dp && !Live(ino[i]) && d in home &&
             HomeOk(ino, home, d)
    ensures HomeOk(Named(ino, i, x, dp, k, name, extra), home, d)
  {
    PlacedKeeps(ino[dp].ents, k, Ent(name, i));
    hide Placed;
  }

  lemma NamedEntry(ino: seq<Inode>, home: Homes, i: nat, nlink: short, dp: nat, k: nat, name: string, p: nat, m: nat)
    requires CanName(ino, dp, k, name, 0) && 0 < i < |ino| && ino[i].kind != Dir && i != dp && p < |ino|
    requires var ino' := Named(ino, i, Inode(Plain, nlink, []), dp, k, name, 0); m < |ino'[p].ents|
    requires p != i && m < |ino[p].ents| ==> EntryOk(ino, home, p, m)
    ensures EntryOk(Named(ino, i, Inode(Plain, nlink, []), dp, k, name, 0), home, p, m)
  {
    PlacedKeeps(ino[dp].ents, k, Ent(name, i));
    hide Placed;
  }

  // ------------------------------------------------------------ a directory is made

  function NewDir(i: nat, dp: nat): Inode {
    Inode(Dir, 1, [Ent(".", i), Ent("..", dp)])
  }

  lemma NewDirCount(i: nat, dp: nat, j: nat)
    ensures Weight(NewDir(i, dp), j) == if j == dp then 1 else 0
  {
    var ents := [Ent(".", i), Ent("..", dp)];
    assert ents[..1] == [Ent(".", i)];
    assert ents[..1][..0] == [];
    assert CountIn(ents[..1], j) == 0;
  }

  lemma NameDir(ino: seq<Inode>, home: Homes, i: nat, dp: nat, k: nat, name: string)
    requires Inv(ino, home) && CanName(ino, dp, k, name, 1) && 0 < i < |ino| && ino[i].kind == Free
    ensures i != dp && Inv(Named(ino, i, NewDir(i, dp), dp, k, name, 1), home[i := (dp, k)])
  {
    hide Count, CountIn, NewDir;
    assert DirOk(ino, home, i);
    var ino' := Named(ino, i, NewDir(i, dp), dp, k, name, 1);
    NewDirIs(i, dp);
    forall j: nat | 0 < j < |ino'| ensures ino'[j].nlink == Count(ino', j) {
      NewDirCount(i, dp, j);
      NamedCount(ino, i, NewDir(i, dp), dp, k, name, 1, j);
    }
    NameDirTree(ino, home, i, dp, k, name);
  }

  lemma NewDirIs(i: nat, dp: nat)
    ensures NewDir(i, dp).nlink == 1 && NewDir(i, dp).kind == Dir
  {
  }

  lemma NameDirTree(ino: seq<Inode>, home: Homes, i: nat, dp: nat, k: nat, name: string)
    requires TreeOk(ino, home) && CanName(ino, dp, k, name, 1) && 0 < i < |ino| && ino[i].kind == Free && i != dp
    requires CountsOk(ino)
    ensures TreeOk(Named(ino, i, NewDir(i, dp), dp, k, name, 1), home[i := (dp, k)])
  {
    hide DirOk, HomeOk, EntryOk, Placed;
    var ino', home' := Named(ino, i, NewDir(i, dp), dp, k, name, 1), home[i := (dp, k)];
    PlacedKeeps(ino[dp].ents, k, Ent(name, i));
    NotHome(ino, home, i);
    forall d: nat | d < |ino'| ensures DirOk(ino', home', d) {
      assert DirOk(ino, home, d);
      NamedDir2(ino, home, i, dp, k, name, d);
    }
    forall d | d in home' ensures HomeOk(ino', home', d) {
      if d != i {
        assert HomeOk(ino, home, d);
        NamedHome(ino, home, i, NewDir(i, dp), dp, k, name, 1, d);
        SameHome(ino', home, home', d);
      } else {
        NewHome(ino, home, i, dp, k, name);
      }
    }
    forall p: nat, m: nat | p < |ino'| && m < |ino'[p].ents| ensures EntryOk(ino', home', p, m) {
      if p != i && m < |ino[p].ents| { assert EntryOk(ino, home, p, m); }
      NamedEntry2(ino, home, i, dp, k, name, p, m);
    }
    assert HomesOk(ino', home');
  }

  lemma SameHome(ino: seq<Inode>, home: Homes, home': Homes, d: nat)
    requires d in home && d in home' && home'[d] == home[d] && HomeOk(ino, home, d)
    ensures HomeOk(ino, home', d)
  {
  }

  lemma NewHome(ino: seq<Inode>, home: Homes, i: nat, dp: nat, k: nat, name: string)
    requires CanName(ino, dp, k, name, 1) && 0 < i < |ino| && i != dp && i != ROOT
    ensures HomeOk(Named(ino, i, NewDir(i, dp), dp, k, name, 1), home[i := (dp, k)], i)
  {
    PlacedKeeps(ino[dp].ents, k, Ent(name, i));
    hide Placed;
  }

  lemma NamedDir2(ino: seq<Inode>, home: Homes, i: nat, dp: nat, k: nat, name: string, d: nat)
    requires CanName(ino, dp, k, name, 1) && 0 < i < |ino| && i != dp && d < |ino| && DirOk(ino, home, d)
    ensures DirOk(Named(ino, i, NewDir(i, dp), dp, k, name, 1), home[i := (dp, k)], d)
  {
    PlacedKeeps(ino[dp].ents, k, Ent(name, i));
    hide Placed;
  }

  /** A free inode is not the root, has no home and no live entry names it. */
  lemma NotHome(ino: seq<Inode>, home: Homes, i: nat)
    requires TreeOk(ino, home) && CountsOk(ino) && 0 < i < |ino| && ino[i].kind == Free
    ensures i !in home && i != ROOT
    ensures forall p: nat, m: nat :: p < |ino| && Live(ino[p]) && 2 <= m < |ino[p].ents| ==> ino[p].ents[m].inum != i
  {
    assert DirOk(ino, home, i);
    HomeLive(ino, home, i);
    forall p: nat, m: nat | p < |ino| && Live(ino[p]) && 2 <= m < |ino[p].ents| ensures ino[p].ents[m].inum != i {
      Unnamed(ino, home, i, p, m);
    }
  }

  lemma HomeLive(ino: seq<Inode>, home: Homes, i: nat)
    requires HomesOk(ino, home) && i < |ino|
    ensures i in home ==> Live(ino[i]) && HomeOk(ino, home, i)
  {
  }

  lemma Unnamed(ino: seq<Inode>, home: Homes, i: nat, p: nat, m: nat)
    requires TreeOk(ino, home) && CountsOk(ino) && 0 < i < |ino| && p < |ino| && Live(ino[p]) && 2 <= m < |ino[p].ents|
    ensures ino[p].ents[m].inum == i ==> ino[i].nlink >= 1
  {
    hide Count, CountIn;
    assert DirOk(ino, home, p);
    if ino[p].ents[m].inum == i {
      CountInMember(ino[p].ents, m, i);
      CountAtLeast(ino, p, i);
    }
  }

  lemma NamedEntry2(ino: seq<Inode>, home: Homes, i: nat, dp: nat, k: nat, name: string, p: nat, m: nat)
    requires CanName(ino, dp, k, name, 1) && 0 < i < |ino| && ino[i].kind == Free && i != dp && p < |ino|
    requires m < |Named(ino, i, NewDir(i, dp), dp, k, name, 1)[p].ents|
    requires p != i && m < |ino[p].ents| ==> EntryOk(ino, home, p, m)
    requires p != i && m < |ino[p].ents| && Live(ino[p]) && 2 <= m ==> ino[p].ents[m].inum != i
    ensures EntryOk(Named(ino, i, NewDir(i, dp), dp, k, name, 1), home[i := (dp, k)], p, m)
  {
    PlacedKeeps(ino[dp].ents, k, Ent(name, i));
    hide Placed;
  }

  // ------------------------------------------------------------ when the counts break

  /** A name in any directory: it counts only if the directory is live. */
  lemma PlacedCount(ino: seq<Inode>, i: nat, x: Inode, dp: nat, k: nat, name: string)
    requires CanPlace(ino, dp, k, name) && 0 < i < |ino| && i != dp && !Live(ino[i]) && x.kind == Plain
    ensures Count(Named(ino, i, x, dp, k, name, 0), i) == Count(ino, i) + if Live(ino[dp]) then 1 else 0
  {
    hide Count, CountIn;
    ShortIs(ino[dp].nlink);
    CountUpdate(ino, i, x, i);
    CountPlaced(ino[dp].ents, k, Ent(name, i), i);
    CountUpdate(ino[i := x], dp, Inode(ino[dp].kind, Short(ino[dp].nlink + 0), Placed(ino[dp].ents, k, Ent(name, i))),
      i);
  }

  /** Exact condition: a new name for a file keeps the counts if and only if the directory still
      has a name itself and the file's count is not at its limit. */
  lemma NamePlainExactly(ino: seq<Inode>, home: Homes, i: nat, dp: nat, k: nat, name: string)
    requires Inv(ino, home) && CanPlace(ino, dp, k, name) && 0 < i < |ino| && ino[i].kind != Dir
    ensures i != dp
    ensures var ino' := Named(ino, i, Inode(Plain, Short(ino[i].nlink + 1), []), dp, k, name, 0);
            && (CountsOk(ino') <==> Live(ino[dp]) && ino[i].nlink < 32767)
            && (CountsOk(ino') ==> Inv(ino', home))
  {
    hide Count, CountIn, TreeOk, Short;
    var x := Inode(Plain, Short(ino[i].nlink + 1), []);
    var ino' := Named(ino, i, x, dp, k, name, 0);
    ShortIs(ino[i].nlink + 1);
    FreeLinks(ino, home, i);
    PlacedCount(ino, i, x, dp, k, name);
    if Live(ino[dp]) && ino[i].nlink < 32767 {
      NamePlain(ino, home, i, x.nlink, dp, k, name);
    } else {
      assert ino'[i].nlink != Count(ino', i);
    }
  }

  lemma FreeLinks(ino: seq<Inode>, home: Homes, i: nat)
    requires TreeOk(ino, home) && i < |ino|
    ensures ino[i].kind == Free ==> ino[i].nlink == 0
  {
    assert DirOk(ino, home, i);
  }

  /** Exact condition: a new directory keeps the counts if and only if its parent still has a name
      and the parent's count is not at its limit. */
  lemma NameDirExactly(ino: seq<Inode>, home: Homes, i: nat, dp: nat, k: nat, name: string)
    requires Inv(ino, home) && CanPlace(ino, dp, k, name) && 0 < i < |ino| && ino[i].kind == Free
    ensures i != dp
    ensures var ino' := Named(ino, i, NewDir(i, dp), dp, k, name, 1);
            && (CountsOk(ino') <==> Live(ino[dp]) && ino[dp].nlink < 32767)
            && (CountsOk(ino') ==> Inv(ino', home[i := (dp, k)]))
  {
    hide Count, CountIn, TreeOk, NewDir;
    if Live(ino[dp]) && ino[dp].nlink < 32767 {
      NameDir(ino, home, i, dp, k, name);
    } else if Live(ino[dp]) {
      ShortIs(0);
      assert Named(ino, i, NewDir(i, dp), dp, k, name, 1)[dp].nlink < 0;
    } else {
      NamelessDir(ino, home, i, dp, k, name);
    }
  }

  /** The nameless parent comes back to life, and with it its ".." that nobody counts. */
  lemma NamelessDir(ino: seq<Inode>, home: Homes, i: nat, dp: nat, k: nat, name: string)
    requires Inv(ino, home) && CanPlace(ino, dp, k, name) && 0 < i < |ino| && ino[i].kind == Free && i != dp &&
             !Live(ino[dp])
    ensures !CountsOk(Named(ino, i, NewDir(i, dp), dp, k, name, 1))
  {
    hide Count, CountIn, NewDir;
    assert DirOk(ino, home, dp) && DirOk(ino, home, i);
    var p := ino[dp].ents[1].inum;
    var ents := Placed(ino[dp].ents, k, Ent(name, i));
    var ino' := Named(ino, i, NewDir(i, dp), dp, k, name, 1);
    assert ino[dp].nlink == 0;
    ShortIs(1);
    NewDirIs(i, dp);
    NewDirCount(i, dp, p);
    CountUpdate(ino, i, NewDir(i, dp), p);
    CountUpdate(ino[i := NewDir(i, dp)], dp, Inode(Dir, 1, ents), p);
    CountPlaced(ino[dp].ents, k, Ent(name, i), p);
    CountInMember(ino[dp].ents, 1, p);
    assert ino'[p].nlink != Count(ino', p);
  }

  /** What mkfs makes: inode 0 is not used, inode 1 is the root, whose ".." is itself. */
  function FreshTree(n: nat): seq<Inode>
    requires n >= 2
  {
    [Inode(Free, 0, []), Inode(Dir, 1, [Ent(".", ROOT), Ent("..", ROOT)])] + seq(n - 2, _ => Inode(Free, 0, []))
  }

  lemma FreshTreeOk(n: nat)
    requires n >= 2
    ensures Inv(FreshTree(n), map[])
  {
    hide Count, CountIn;
    var ino := FreshTree(n);
    forall j: nat | 0 < j < n ensures ino[j].nlink == Count(ino, j) {
      NewDirCount(ROOT, ROOT, j);
      CountOnly(ino, ROOT, j);
    }
  }

  /** mkdir d, chdir d, rmdir of d under its name, and then a file made in it: all counts are right
      until the last step, which leaves a file with one link that no directory anyone can reach
      holds. */
  lemma NamelessBreaks()
    ensures var ino0 := FreshTree(4);
            && Inv(ino0, map[]) && CanName(ino0, ROOT, 2, "d", 1)
            && var ino1 := Named(ino0, 2, NewDir(2, ROOT), ROOT, 2, "d", 1);
               && CountsOk(ino1) && NamedAt(ino1, ROOT, 2, 2) && EmptyDir(ino1[2])
               && ino1[2].nlink >= 1 && ino1[ROOT].nlink >= 1
               && var ino2 := Unnamed2(ino1, ROOT, 2, 1, 2);
                  && CountsOk(ino2) && ino2[3].kind == Free && CanPlace(ino2, 2, 2, "f")
                  && !CountsOk(Named(ino2, 3, Inode(Plain, 1, []), 2, 2, "f", 0))
  {
    hide Count, CountIn, CountsOk, TreeOk;
    var ino0 := FreshTree(4);
    FreshTreeOk(4);
    NameDir(ino0, map[], 2, ROOT, 2, "d");
    var ino1 := Named(ino0, 2, NewDir(2, ROOT), ROOT, 2, "d", 1);
    UnlinkDir(ino1, map[][2 := (ROOT, 2)], ROOT, 2, 2);
    var ino2 := Unnamed2(ino1, ROOT, 2, 1, 2);
    ShortIs(1);
    NamePlainExactly(ino2, map[][2 := (ROOT, 2)] - {2}, 3, 2, 2, "f");
  }

  // ------------------------------------------------------------ a name is removed

  /** Entry k of live directory dp names inode i. */
  ghost predicate NamedAt(ino: seq<Inode>, dp: nat, k: nat, i: nat) {
    0 < dp < |ino| && Live(ino[dp]) && 2 <= k < |ino[dp].ents| && 0 < i < |ino| && ino[dp].ents[k].inum == i
  }

  /** How many links the parent loses with a name for x. */
  function Less(x: Inode): nat {
    if x.kind == Dir then 1 else 0
  }

  /** The state after entry k of dp is erased, dp has `less` links less, and i has one less. */
  function Unnamed2(ino: seq<Inode>, dp: nat, k: nat, less: nat, i: nat): seq<Inode>
    requires dp < |ino| && k < |ino[dp].ents| && i < |ino| && i != dp && less <= ino[dp].nlink && ino[i].nlink >= 1
  {
    ino[dp := Inode(ino[dp].kind, ino[dp].nlink - less, ino[dp].ents[k := Ent("", 0)])]
       [i := Inode(ino[i].kind, ino[i].nlink - 1, ino[i].ents)]
  }

  /** The panic on nlink < 1 is out of reach: what a live directory names has a link. */
  lemma NamedHasLink(ino: seq<Inode>, home: Homes, dp: nat, k: nat, i: nat)
    requires Inv(ino, home) && NamedAt(ino, dp, k, i)
    ensures ino[i].nlink >= 1 && ino[i].kind != Free
  {
    Unnamed(ino, home, i, dp, k);
    assert DirOk(ino, home, i);
  }

  lemma UnnamedCount(ino: seq<Inode>, dp: nat, k: nat, less: nat, i: nat, j: nat)
    requires NamedAt(ino, dp, k, i) && i != dp && less < ino[dp].nlink && ino[i].nlink >= 1 && j > 0 &&
             ino[dp].ents[k].name != "."
    ensures Count(Unnamed2(ino, dp, k, less, i), j) + (if j == i then 1 else 0) + Weight(ino[i], j) ==
            Count(ino, j) + Weight(Inode(ino[i].kind, ino[i].nlink - 1, ino[i].ents), j)
  {
    hide Count, CountIn;
    var x := Inode(ino[dp].kind, ino[dp].nlink - less, ino[dp].ents[k := Ent("", 0)]);
    CountUpdate(ino, dp, x, j);
    CountErased(ino[dp].ents, k, j);
    CountUpdate(ino[dp := x], i, Inode(ino[i].kind, ino[i].nlink - 1, ino[i].ents), j);
  }

  lemma NotItself(ino: seq<Inode>, home: Homes, dp: nat, k: nat, i: nat)
    requires Inv(ino, home) && NamedAt(ino, dp, k, i)
    ensures i != dp
    ensures ino[dp].ents[k].name != "."
    ensures ino[i].kind == Dir ==> i in home && home[i] == (dp, k) && HomeOk(ino, home, i)
  {
    hide Count, CountIn;
    assert DirOk(ino, home, dp);
    assert EntryOk(ino, home, dp, k);
    HomeLive(ino, home, i);
  }

  /** A name of something that is not a directory is erased. */
  lemma UnlinkPlain(ino: seq<Inode>, home: Homes, dp: nat, k: nat, i: nat)
    requires Inv(ino, home) && NamedAt(ino, dp, k, i) && ino[i].kind != Dir
    ensures i != dp && ino[i].nlink >= 1 && Inv(Unnamed2(ino, dp, k, 0, i), home)
  {
    hide Count, CountIn;
    NamedHasLink(ino, home, dp, k, i);
    NotItself(ino, home, dp, k, i);
    var ino' := Unnamed2(ino, dp, k, 0, i);
    forall j: nat | 0 < j < |ino'| ensures ino'[j].nlink == Count(ino', j) {
      UnnamedCount(ino, dp, k, 0, i, j);
    }
    UnlinkPlainTree(ino, home, dp, k, i);
  }

  lemma UnlinkPlainTree(ino: seq<Inode>, home: Homes, dp: nat, k: nat, i: nat)
    requires TreeOk(ino, home) && NamedAt(ino, dp, k, i) && ino[i].kind == Plain && i != dp && ino[i].nlink >= 1
    ensures TreeOk(Unnamed2(ino, dp, k, 0, i), home)
  {
    hide DirOk, HomeOk, EntryOk;
    var ino' := Unnamed2(ino, dp, k, 0, i);
    forall d: nat | d < |ino'| ensures DirOk(ino', home, d) {
      assert DirOk(ino, home, d);
      ErasedDir(ino, home, dp, k, i, d);
    }
    forall d | d in home ensures HomeOk(ino', home, d) {
      assert HomeOk(ino, home, d);
      ErasedHome(ino, home, dp, k, i, d);
    }
    forall p: nat, m: nat | p < |ino'| && m < |ino'[p].ents| ensures EntryOk(ino', home, p, m) {
      assert EntryOk(ino, home, p, m);
      ErasedEntry(ino, home, dp, k, i, p, m);
    }
  }

  lemma ErasedDir(ino: seq<Inode>, home: Homes, dp: nat, k: nat, i: nat, d: nat)
    requires NamedAt(ino, dp, k, i) && ino[i].kind == Plain && i != dp && ino[i].nlink >= 1 && d < |ino| &&
             DirOk(ino, home, d)
    ensures DirOk(Unnamed2(ino, dp, k, 0, i), home, d)
  {
  }

  lemma ErasedHome(ino: seq<Inode>, home: Homes, dp: nat, k: nat, i: nat, d: nat)
    requires NamedAt(ino, dp, k, i) && ino[i].kind == Plain && i != dp && ino[i].nlink >= 1 && d in home &&
             HomeOk(ino, home, d)
    ensures HomeOk(Unnamed2(ino, dp, k, 0, i), home, d)
  {
  }

  lemma ErasedEntry(ino: seq<Inode>, home: Homes, dp: nat, k: nat, i: nat, p: nat, m: nat)
    requires NamedAt(ino, dp, k, i) && ino[i].kind == Plain && i != dp && ino[i].nlink >= 1 && p < |ino| &&
             m < |ino[p].ents|
    requires EntryOk(ino, home, p, m)
    ensures EntryOk(Unnamed2(ino, dp, k, 0, i), home, p, m)
  {
  }

  // ------------------------------------------------------------ a directory is removed

  /** An empty directory has one link, its name; and its parent has at least two. */
  lemma EmptyDirLinks(ino: seq<Inode>, home: Homes, dp: nat, k: nat, i: nat)
    requires Inv(ino, home) && NamedAt(ino, dp, k, i) && ino[i].kind == Dir && EmptyDir(ino[i])
    ensures ino[i].nlink == 1 && ino[dp].nlink >= 2
  {
    hide Count, CountIn;
    NotItself(ino, home, dp, k, i);
    assert DirOk(ino, home, dp) && DirOk(ino, home, i);
    forall d: nat | d < |ino| && d != dp ensures Weight(ino[d], i) == 0 {
      OnlyHome(ino, home, dp, k, i, d);
    }
    CountOnly(ino, dp, i);
    HomeOnce(ino, home, dp, k, i);
    ParentLinks(ino, home, dp, k, i);
  }

  /** Directory d does not name the empty directory i unless it is its parent. */
  lemma OnlyHome(ino: seq<Inode>, home: Homes, dp: nat, k: nat, i: nat, d: nat)
    requires TreeOk(ino, home) && NamedAt(ino, dp, k, i) && EmptyDir(ino[i]) && ino[i].kind == Dir && d < |ino| &&
             d != dp
    requires i in home && home[i] == (dp, k)
    ensures Weight(ino[d], i) == 0
  {
    if Live(ino[d]) {
      assert DirOk(ino, home, d);
      forall m | 0 <= m < |ino[d].ents| ensures !Names(ino[d].ents[m], i) {
        NotNamedBy(ino, home, dp, k, i, d, m);
      }
      CountInNone(ino[d].ents, i);
    }
  }

  lemma NotNamedBy(ino: seq<Inode>, home: Homes, dp: nat, k: nat, i: nat, d: nat, m: nat)
    requires TreeOk(ino, home) && NamedAt(ino, dp, k, i) && EmptyDir(ino[i]) && ino[i].kind == Dir && d < |ino| &&
             Live(ino[d])
    requires i in home && home[i] == (dp, k) && m < |ino[d].ents| && (d != dp || m != k)
    ensures !Names(ino[d].ents[m], i)
  {
    assert DirOk(ino, home, d) && EntryOk(ino, home, d, m) && HomeOk(ino, home, i);
    HomeLive(ino, home, d);
  }

  lemma HomeOnce(ino: seq<Inode>, home: Homes, dp: nat, k: nat, i: nat)
    requires TreeOk(ino, home) && NamedAt(ino, dp, k, i) && EmptyDir(ino[i]) && ino[i].kind == Dir
    requires i in home && home[i] == (dp, k) && ino[dp].ents[k].name != "."
    ensures Weight(ino[dp], i) == 1
  {
    forall m | 0 <= m < |ino[dp].ents| && m != k ensures !Names(ino[dp].ents[m], i) {
      NotNamedBy(ino, home, dp, k, i, dp, m);
    }
    CountInOne(ino[dp].ents, k, i);
  }

  /** The parent is named by its own name, or is the root, and by the ".." of the child. */
  lemma ParentLinks(ino: seq<Inode>, home: Homes, dp: nat, k: nat, i: nat)
    requires Inv(ino, home) && NamedAt(ino, dp, k, i) && EmptyDir(ino[i]) && ino[i].kind == Dir && i != dp
    requires i in home && home[i] == (dp, k) && HomeOk(ino, home, i)
    ensures ino[dp].nlink >= 2
  {
    hide Count;
    assert DirOk(ino, home, dp) && DirOk(ino, home, i);
    CountInMember(ino[i].ents, 1, dp);
    var q, m := if dp == ROOT then ROOT else home[dp].0, if dp == ROOT then 1 else home[dp].1;
    HomeLive(ino, home, dp);
    assert DirOk(ino, home, q);
    CountInMember(ino[q].ents, m, dp);
    if q < i { CountAtLeastTwo(ino, q, i, dp); } else { CountAtLeastTwo(ino, i, q, dp); }
  }

  lemma UnlinkDir(ino: seq<Inode>, home: Homes, dp: nat, k: nat, i: nat)
    requires Inv(ino, home) && NamedAt(ino, dp, k, i) && ino[i].kind == Dir && EmptyDir(ino[i])
    ensures i != dp && ino[i].nlink >= 1 && ino[dp].nlink >= 1 && Inv(Unnamed2(ino, dp, k, 1, i), home - {i})
  {
    hide Count, CountIn;
    NamedHasLink(ino, home, dp, k, i);
    NotItself(ino, home, dp, k, i);
    EmptyDirLinks(ino, home, dp, k, i);
    var ino' := Unnamed2(ino, dp, k, 1, i);
    forall j: nat | 0 < j < |ino'| ensures ino'[j].nlink == Count(ino', j) {
      UnnamedCount(ino, dp, k, 1, i, j);
      EmptyWeight(ino, home, dp, i, j);
    }
    UnlinkDirTree(ino, home, dp, k, i);
  }

  /** The empty directory names only its parent. */
  lemma EmptyWeight(ino: seq<Inode>, home: Homes, dp: nat, i: nat, j: nat)
    requires TreeOk(ino, home) && i in home && home[i].0 == dp && EmptyDir(ino[i]) && HomeOk(ino, home, i) && j > 0
    ensures Weight(ino[i], j) == if j == dp then 1 else 0
  {
    assert DirOk(ino, home, i);
    if j == dp { CountInOne(ino[i].ents, 1, j); } else { CountInNone(ino[i].ents, j); }
  }

  lemma UnlinkDirTree(ino: seq<Inode>, home: Homes, dp: nat, k: nat, i: nat)
    requires TreeOk(ino, home) && NamedAt(ino, dp, k, i) && ino[i].kind == Dir && i != dp && ino[i].nlink == 1 &&
             ino[dp].nlink >= 2
    requires EmptyDir(ino[i]) && i in home && home[i] == (dp, k) && HomeOk(ino, home, i)
    ensures TreeOk(Unnamed2(ino, dp, k, 1, i), home - {i})
  {
    hide DirOk, HomeOk, EntryOk;
    var ino', home' := Unnamed2(ino, dp, k, 1, i), home - {i};
    RootStays(ino, home, dp, k, i);
    forall d: nat | d < |ino'| ensures DirOk(ino', home', d) {
      assert DirOk(ino, home, d);
      ErasedDir2(ino, home, dp, k, i, d);
    }
    forall d | d in home' ensures HomeOk(ino', home', d) {
      assert HomeOk(ino, home, d);
      ErasedHome2(ino, home, dp, k, i, d);
    }
    forall p: nat, m: nat | p < |ino'| && m < |ino'[p].ents| ensures EntryOk(ino', home', p, m) {
      assert EntryOk(ino, home, p, m);
      ErasedEntry2(ino, home, dp, k, i, p, m);
    }
  }

  lemma RootStays(ino: seq<Inode>, home: Homes, dp: nat, k: nat, i: nat)
    requires RootOk(ino) && NamedAt(ino, dp, k, i) && i != dp && ino[i].nlink == 1 && ino[dp].nlink >= 2 && i in home &&
             HomeOk(ino, home, i)
    ensures RootOk(Unnamed2(ino, dp, k, 1, i))
  {
  }

  lemma ErasedDir2(ino: seq<Inode>, home: Homes, dp: nat, k: nat, i: nat, d: nat)
    requires NamedAt(ino, dp, k, i) && ino[i].kind == Dir && i != dp && ino[i].nlink == 1 && ino[dp].nlink >= 2
    requires d < |ino| && DirOk(ino, home, d) && EmptyDir(ino[i]) && i in home && home[i] == (dp, k) &&
             HomeOk(ino, home, i)
    ensures DirOk(Unnamed2(ino, dp, k, 1, i), home - {i}, d)
  {
  }

  lemma ErasedHome2(ino: seq<Inode>, home: Homes, dp: nat, k: nat, i: nat, d: nat)
    requires NamedAt(ino, dp, k, i) && i != dp && ino[i].nlink == 1 && ino[dp].nlink >= 2 && EmptyDir(ino[i])
    requires d in home && d != i && HomeOk(ino, home, d)
    ensures HomeOk(Unnamed2(ino, dp, k, 1, i), home - {i}, d)
  {
  }

  lemma ErasedEntry2(ino: seq<Inode>, home: Homes, dp: nat, k: nat, i: nat, p: nat, m: nat)
    requires NamedAt(ino, dp, k, i) && i != dp && ino[i].nlink == 1 && ino[dp].nlink >= 2 && p < |ino| &&
             m < |ino[p].ents|
    requires EntryOk(ino, home, p, m) && i in home && home[i] == (dp, k) && ino[i].kind == Dir
    ensures EntryOk(Unnamed2(ino, dp, k, 1, i), home - {i}, p, m)
  {
  }

  // ------------------------------------------------------------ an inode is freed

  /** iput of the last reference to an inode without links: nothing counted goes away. */
  lemma FreeOk(ino: seq<Inode>, home: Homes, i: nat)
    requires Inv(ino, home) && 0 < i < |ino| && ino[i].nlink == 0
    ensures Inv(ino[i := Inode(Free, 0, [])], home)
  {
    hide Count, CountIn;
    var ino' := ino[i := Inode(Free, 0, [])];
    forall j: nat | 0 < j < |ino'| ensures ino'[j].nlink == Count(ino', j) {
      CountUpdate(ino, i, Inode(Free, 0, []), j);
    }
    forall d: nat | d < |ino'| ensures DirOk(ino', home, d) {
      assert DirOk(ino, home, d);
    }
    forall d | d in home ensures HomeOk(ino', home, d) {
      assert HomeOk(ino, home, d);
    }
    forall p: nat, m: nat | p < |ino'| && m < |ino'[p].ents| ensures EntryOk(ino', home, p, m) {
      assert EntryOk(ino, home, p, m);
    }
  }
}
