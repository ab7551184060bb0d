/** kernel/sysfile.c (sys_link, sys_unlink, create, isdirempty) and kernel/fs.c (dirlookup,
    dirlink, the freeing part of iput) as code over the inodes. Paths are resolved already; what
    namei and ialloc found, and whether a directory can grow, are parameters. */
module LinkCode {
  import opened Base
  import opened Links

  /** dirlookup: the first entry with the name. */
  method DirLookup(ents: seq<Ent>, name: string) returns (r: Option<nat>)
    ensures r.Some? ==> r.value < |ents| && ents[r.value].inum != 0 && ents[r.value].name == name
    ensures r.Some? ==> forall j :: 0 <= j < r.value ==> ents[j].inum == 0 || ents[j].name != name
    ensures r.None? ==> forall j :: 0 <= j < |ents| ==> ents[j].inum == 0 || ents[j].name != name
  {
    var k := 0;
    while k < |ents|
      invariant k <= |ents| && forall j :: 0 <= j < k ==> ents[j].inum == 0 || ents[j].name != name
    {
      if ents[k].inum != 0 && ents[k].name == name {
        return Some(k);
      }
      k := k + 1;
    }
    return None;
  }

  predicate HasName(ents: seq<Ent>, name: string) {
    exists j :: 0 <= j < |ents| && ents[j].inum != 0 && ents[j].name == name
  }

  /** Some entry of dp gives inode i the name. */
  ghost predicate NamedBy(ino: seq<Inode>, dp: nat, name: string, i: nat) {
    && 0 < i < |ino| && dp < |ino|
    && exists k :: 0 <= k < |ino[dp].ents| && ino[dp].ents[k].inum == i && ino[dp].ents[k].name == name
  }

  /** No empty slot. */
  predicate Packed(ents: seq<Ent>) {
    forall j :: 0 <= j < |ents| ==> ents[j].inum != 0
  }

  /** dirlink's search: the first empty slot, or the end. */
  method EmptySlot(ents: seq<Ent>) returns (k: nat)
    ensures k <= |ents| && (k < |ents| ==> ents[k].inum == 0) && forall j :: 0 <= j < k ==> ents[j].inum != 0
  {
    k := 0;
    while k < |ents|
      invariant k <= |ents| && forall j :: 0 <= j < k ==> ents[j].inum != 0
    {
      if ents[k].inum == 0 {
        break;
      }
      k := k + 1;
    }
  }

  /** dirlink as a change of the entries. `room` says whether the directory can grow. */
  method DirLink(ents: seq<Ent>, name: string, inum: nat, room: bool) returns (r: Option<(nat, seq<Ent>)>)
    ensures r.Some? ==>
              r.value.0 <= |ents| && (r.value.0 < |ents| ==> ents[r.value.0].inum == 0) &&
              r.value.1 == Placed(ents, r.value.0, Ent(name, inum))
    ensures r.None? <==> HasName(ents, name) || (!room && Packed(ents))
    ensures r.Some? ==> forall j :: 0 <= j < r.value.0 ==> ents[j].inum != 0
  {
    var found := DirLookup(ents, name);
    if found.Some? {
      return None;
    }
    var k := EmptySlot(ents);
    if k == |ents| && !room {
      return None;
    }
    return Some((k, if k < |ents| then ents[k := Ent(name, inum)] else ents + [Ent(name, inum)]));
  }

  /** isdirempty. */
  method IsDirEmpty(x: Inode) returns (r: bool)
    ensures r <==> EmptyDir(x)
  {
    var k := 2;
    while k < |x.ents|
      invariant 2 <= k && forall j :: 2 <= j < k && j < |x.ents| ==> x.ents[j].inum == 0
    {
      if x.ents[k].inum != 0 {
        return false;
      }
      k := k + 1;
    }
    return true;
  }

  lemma SlotIsLate(ino: seq<Inode>, home: Homes, dp: nat, k: nat, name: string)
    requires Inv(ino, home) && 0 < dp < |ino| && ino[dp].kind == Dir && k <= |ino[dp].ents| &&
             (k < |ino[dp].ents| ==> ino[dp].ents[k].inum == 0)
    requires !HasName(ino[dp].ents, name)
    requires |ino[dp].ents| >= 2 && ino[dp].ents[1].inum != 0
    ensures CanPlace(ino, dp, k, name)
  {
    assert DirOk(ino, home, dp);
    assert ino[dp].ents[0].name == "." && ino[dp].ents[1].name == "..";
  }

  /** ".." always leads somewhere. */
  lemma DotDot(ino: seq<Inode>, home: Homes, dp: nat)
    requires Inv(ino, home) && 0 < dp < |ino| && ino[dp].kind == Dir
    ensures |ino[dp].ents| >= 2 && 0 < ino[dp].ents[1].inum < |ino|
  {
    assert DirOk(ino, home, dp);
    HomeLive(ino, home, dp);
  }

  /** The only entry in use that is called ".." is the second one. */
  lemma DotDotFirst(ino: seq<Inode>, home: Homes, dp: nat, name: string)
    requires Inv(ino, home) && 0 < dp < |ino| && ino[dp].kind == Dir
    ensures |ino[dp].ents| >= 2 && ino[dp].ents[1].name == ".." && ino[dp].ents[1].inum != 0
    ensures forall k :: 0 <= k < |ino[dp].ents| && ino[dp].ents[k].inum != 0 && ino[dp].ents[k].name == ".." ==> k == 1
  {
    assert DirOk(ino, home, dp);
    DotDot(ino, home, dp);
  }

  /** A directory without a name whose ".." leads to an inode that has been freed. */
  predicate LostParent(ino: seq<Inode>, d: nat)
    requires d < |ino|
  {
    !Live(ino[d]) && |ino[d].ents| >= 2 && ino[d].ents[1].inum < |ino| && ino[ino[d].ents[1].inum].kind == Free
  }

  /** What sys_link does: it succeeds, it returns -1, or ilock panics on an inode without a type. */
  datatype LinkEnd = Linked | NotLinked | LinkPanics

  /** What create returns: an inode, nothing, or a panic of ilock on an inode without a type. */
  datatype Created = Got(inum: nat) | Refused | Panics

  class FileTree {
    var ino: seq<Inode>
    ghost var home: Homes

    ghost predicate Valid()
      reads this
    {
      Inv(ino, home)
    }

    /** What mkfs makes, with room for n inodes. */
    constructor (n: nat)
      requires n >= 2
      ensures Valid() && ino == FreshTree(n)
    {
      ino, home := FreshTree(n), map[];
      FreshTreeOk(n);
    }

    /** sys_link: the count goes up before the name is written, and down again if it is not. The
        counts are right afterwards if and only if the parent still has a name and the count did
        not wrap. ilock panics if and only if the old name leads to a free inode, as the ".." of a
        nameless directory may. */
    method SysLink(old': Option<nat>, parent: Option<nat>, name: string, room: bool) returns (r: LinkEnd)
      requires Valid()
      requires old'.Some? ==> 0 < old'.value < |ino|
      requires parent.Some? ==> 0 < parent.value < |ino| && ino[parent.value].kind == Dir
      modifies this
      ensures |ino| == |old(ino)|
      ensures r != Linked ==> Valid() && ino == old(ino) && home == old(home)
      ensures r == LinkPanics <==> old'.Some? && old(ino)[old'.value].kind == Free
      ensures r == NotLinked <==>
                || old'.None? || old(ino)[old'.value].kind == Dir
                || (old(ino)[old'.value].kind == Plain
                    && (parent.None? || HasName(old(ino)[parent.value].ents, name)
                        || (!room && Packed(old(ino)[parent.value].ents))))
      ensures r == Linked ==> exists k: nat ::
                CanPlace(old(ino), parent.value, k, name)
                && ino == Named(old(ino), old'.value, Inode(Plain, Short(old(ino)[old'.value].nlink + 1), []),
                   parent.value, k, name, 0)
      ensures r == Linked ==> (CountsOk(ino) <==> Live(old(ino)[parent.value]) && old(ino)[old'.value].nlink < 32767)
      ensures CountsOk(ino) ==> Valid()
    {
      hide Count, CountIn, TreeOk, CountsOk, Short;
      if old'.None? {
        return NotLinked;
      }
      var i := old'.value;
      if ino[i].kind == Free {
        return LinkPanics;
      }
      if ino[i].kind == Dir {
        return NotLinked;
      }
      ghost var ino0 := ino;
      ino := ino[i := Inode(ino[i].kind, Short(ino[i].nlink + 1), ino[i].ents)];
      var done := false;
      if parent.Some? {
        var dp := parent.value;
        DotDot(ino0, home, dp);
        PlainEmpty(ino0, home, i);
        var link := DirLink(ino[dp].ents, name, i, room);
        if link.Some? {
          SlotIsLate(ino0, home, dp, link.value.0, name);
          NamePlainExactly(ino0, home, i, dp, link.value.0, name);
          ShortIs(ino0[dp].nlink);
          ino := ino[dp := Inode(ino[dp].kind, ino[dp].nlink, link.value.1)];
          assert ino == Named(ino0, i, Inode(Plain, Short(ino0[i].nlink + 1), []), dp, link.value.0, name, 0);
          done := true;
        }
      }
      if !done {
        UpAndDown(ino0[i].nlink);
        ino := ino[i := Inode(ino[i].kind, Short(ino[i].nlink - 1), ino[i].ents)];
        assert ino == ino0;
        return NotLinked;
      }
      r := Linked;
    }

    /** sys_unlink. */
    method SysUnlink(parent: Option<nat>, name: string) returns (r: int)
      requires Valid() && (parent.Some? ==> 0 < parent.value < |ino| && ino[parent.value].kind == Dir)
      modifies this
      ensures Valid() && (r == 0 || r == -1) && |ino| == |old(ino)|
      ensures r == -1 ==> ino == old(ino) && home == old(home)
      ensures r == 0 ==> parent.Some? && name != "." && name != ".." && exists k: nat, i: nat ::
                NamedAt(old(ino), parent.value, k, i) && old(ino)[parent.value].ents[k].name == name &&
                  i != parent.value
                && old(ino)[i].nlink >= 1 &&
                   ino == Unnamed2(old(ino), parent.value, k, Less(old(ino)[i]), i)
                && (old(ino)[i].kind == Dir ==> EmptyDir(old(ino)[i]))
      ensures r == -1 ==> parent.None? || name == "." || name == ".." || !HasName(old(ino)[parent.value].ents, name)
                          || exists k: nat, i: nat ::
                               NamedAt(old(ino), parent.value, k, i) && old(ino)[parent.value].ents[k].name == name
                                                       && old(ino)[i].kind == Dir && !EmptyDir(old(ino)[i])
    {
      hide Count, CountIn, TreeOk;
      if parent.None? {
        return -1;
      }
      var dp := parent.value;
      if name == "." || name == ".." {
        return -1;
      }
      var found := DirLookup(ino[dp].ents, name);
      if found.None? {
        return -1;
      }
      var k := found.value;
      var i := ino[dp].ents[k].inum;
      FoundLate(ino, home, dp, k, name);
      NamedHasLink(ino, home, dp, k, i);  // the panic of kernel/sysfile.c:232 is out of reach
      NotItself(ino, home, dp, k, i);
      ghost var ino0 := ino;
      if ino[i].kind == Dir {
        var empty := IsDirEmpty(ino[i]);
        if !empty {
          return -1;
        }
        UnlinkDir(ino, home, dp, k, i);
        ino := ino[dp := Inode(ino[dp].kind, ino[dp].nlink, ino[dp].ents[k := Ent("", 0)])];
        ino := ino[dp := Inode(ino[dp].kind, ino[dp].nlink - 1, ino[dp].ents)];
        ino := ino[i := Inode(ino[i].kind, ino[i].nlink - 1, ino[i].ents)];
        home := home - {i};
        assert ino == Unnamed2(ino0, dp, k, 1, i);
      } else {
        UnlinkPlain(ino, home, dp, k, i);
        ino := ino[dp := Inode(ino[dp].kind, ino[dp].nlink, ino[dp].ents[k := Ent("", 0)])];
        ino := ino[i := Inode(ino[i].kind, ino[i].nlink - 1, ino[i].ents)];
        assert ino == Unnamed2(ino0, dp, k, 0, i);
      }
      r := 0;
      assert NamedAt(ino0, dp, k, i);
    }

    /** create: an existing file, a new inode with its name, or nothing at all. `alloc` is what
        ialloc found. The counts are right afterwards if and only if the parent still has a name
        and, for a directory, its count did not wrap. ilock panics if and only if the name is ".."
        and the directory is a nameless one whose ".." leads to a free inode. */
    method Create(parent: Option<nat>, name: string, kind: Kind, alloc: Option<nat>, roomSelf: bool, room: bool)
      returns (r: Created)
      requires Valid() && kind != Free
      requires parent.Some? ==> 0 < parent.value < |ino| && ino[parent.value].kind == Dir
      requires alloc.Some? ==> 0 < alloc.value < |ino| && ino[alloc.value].kind == Free
      modifies this
      ensures CountsOk(ino) ==> Valid()
      ensures !r.Got? ==> Valid() && ino == old(ino) && home == old(home)
      ensures r.Got? ==> 0 < r.inum < |ino| == |old(ino)| && ino[r.inum].kind == kind && parent.Some?
      ensures r.Got? && !HasName(old(ino)[parent.value].ents, name) ==> alloc == Some(r.inum) && exists k: nat ::
                CanPlace(old(ino), parent.value, k, name)
                && ino == if kind == Dir then
                   Named(old(ino), r.inum, NewDir(r.inum, parent.value), parent.value, k, name, 1)
                          else Named(old(ino), r.inum, Inode(Plain, 1, []), parent.value, k, name, 0)
      ensures r.Got? && !HasName(old(ino)[parent.value].ents, name) ==>
                (CountsOk(ino) <==>
                    Live(old(ino)[parent.value]) && (kind == Dir ==> old(ino)[parent.value].nlink < 32767))
      ensures r.Got? && HasName(old(ino)[parent.value].ents, name) ==>
                ino == old(ino) && NamedBy(ino, parent.value, name, r.inum) &&
                  (Live(ino[parent.value]) ==> ino[r.inum].nlink >= 1)
      ensures r.Panics? <==> parent.Some? && LostParent(old(ino), parent.value) && name == ".."
      ensures r.Refused? && parent.Some? && HasName(old(ino)[parent.value].ents, name) ==>
                kind == Dir || exists i: nat :: NamedBy(ino, parent.value, name, i) && ino[i].kind == Dir
      ensures r.Refused? && parent.Some? && alloc.Some? && room && (kind == Dir ==> roomSelf) ==>
                HasName(old(ino)[parent.value].ents, name)
    {
      hide Count, CountIn, TreeOk, CountsOk;
      if parent.None? {
        return Refused;
      }
      var dp := parent.value;
      DotDotFirst(ino, home, dp, name);
      var found := DirLookup(ino[dp].ents, name);
      if found.Some? {
        r := Existing(dp, found.value, kind);
        assert NamedBy(ino, dp, name, ino[dp].ents[found.value].inum);
        return;
      }
      if alloc.None? {
        return Refused;
      }
      r := MakeInode(dp, name, kind, alloc.value, roomSelf, room);
    }

    /** create of a name that does not exist: the inode, its dots, its name and the parent's count,
        or the inode freed again. */
    method MakeInode(dp: nat, name: string, kind: Kind, i: nat, roomSelf: bool, room: bool) returns (r: Created)
      requires Valid() && kind != Free && 0 < dp < |ino| && ino[dp].kind == Dir
      requires 0 < i < |ino| && ino[i].kind == Free && !HasName(ino[dp].ents, name)
      requires |ino[dp].ents| >= 2 && ino[dp].ents[1].inum != 0
      modifies this
      ensures (r == Refused || r == Got(i)) && |ino| == |old(ino)| && (CountsOk(ino) ==> Valid())
      ensures r.Refused? ==> Valid() && ino == old(ino) && home == old(home) && !((kind == Dir ==> roomSelf) && room)
      ensures r.Got? ==> ino[i].kind == kind && exists k: nat ::
                CanPlace(old(ino), dp, k, name)
                && ino == if kind == Dir then Named(old(ino), i, NewDir(i, dp), dp, k, name, 1)
                          else Named(old(ino), i, Inode(Plain, 1, []), dp, k, name, 0)
      ensures r.Got? ==> (CountsOk(ino) <==> Live(old(ino)[dp]) && (kind == Dir ==> old(ino)[dp].nlink < 32767))
    {
      hide Count, CountIn, TreeOk, CountsOk, Short, Inv;
      ghost var ino0 := ino;
      FreeIs(ino0, home, i);
      ino := ino[i := Inode(kind, 1, [])];
      var ok := true;
      if kind == Dir {
        if roomSelf {
          ino := ino[i := Inode(kind, 1, [Ent(".", i), Ent("..", dp)])];
        } else {
          ok := false;
        }
      }
      if ok {
        var link := DirLink(ino[dp].ents, name, i, room);
        if link.Some? {
          SlotIsLate(ino0, home, dp, link.value.0, name);
          ino := ino[dp := Inode(ino[dp].kind, ino[dp].nlink, link.value.1)];
          ShortIs(ino0[dp].nlink);
          if kind == Dir {
            NameDirExactly(ino0, home, i, dp, link.value.0, name);
            ino := ino[dp := Inode(ino[dp].kind, Short(ino[dp].nlink + 1), ino[dp].ents)];
            home := home[i := (dp, link.value.0)];
            assert ino == Named(ino0, i, NewDir(i, dp), dp, link.value.0, name, 1);
          } else {
            ShortIs(1);
            NamePlainExactly(ino0, home, i, dp, link.value.0, name);
            assert ino == Named(ino0, i, Inode(Plain, 1, []), dp, link.value.0, name, 0);
          }
          return Got(i);
        }
      }
      ino := ino[i := Inode(ino[i].kind, 0, ino[i].ents)];
      ino := ino[i := Inode(Free, 0, [])];
      assert ino == ino0;
      return Refused;
    }

    /** create's answer when the name exists. */
    method Existing(dp: nat, k: nat, kind: Kind) returns (r: Created)
      requires Valid() && 0 < dp < |ino| && ino[dp].kind == Dir && k < |ino[dp].ents| && ino[dp].ents[k].inum != 0 &&
               kind != Free
      ensures 0 < ino[dp].ents[k].inum < |ino|
      ensures r.Panics? <==> ino[ino[dp].ents[k].inum].kind == Free
      ensures r.Panics? ==> !Live(ino[dp]) && k == 1 && ino[dp].ents[k].name == ".."
      ensures r.Got? <==> kind == Plain && ino[ino[dp].ents[k].inum].kind == Plain
      ensures r.Got? ==> r.inum == ino[dp].ents[k].inum && (Live(ino[dp]) ==> ino[r.inum].nlink >= 1)
    {
      hide Count, CountIn, TreeOk;
      var i := ino[dp].ents[k].inum;
      Pointed(ino, home, dp, k);
      if ino[i].kind == Free {
        return Panics;
      }
      if kind == Plain && ino[i].kind == Plain {
        return Got(i);
      }
      return Refused;
    }

    /** The part of iput that frees an inode nobody holds and nothing names. */
    method FreeInode(i: nat)
      requires Valid() && 0 < i < |ino| && ino[i].nlink == 0
      modifies this
      ensures Valid() && ino == old(ino)[i := Inode(Free, 0, [])]
    {
      FreeOk(ino, home, i);
      ino := ino[i := Inode(Free, 0, [])];
    }
  }

  /** mkdir d, chdir d, rmdir of d, and a file made in it, as calls of the code: every call succeeds,
      and at the end the file's count says one link that no directory anyone can reach holds. */
  method NamelessRun() returns (tree: FileTree)
    ensures !CountsOk(tree.ino) && 3 < |tree.ino| && tree.ino[3] == Inode(Plain, 1, [])
  {
    hide Count, CountIn, TreeOk, CountsOk, Inv, Named, Unnamed2;
    tree := new FileTree(4);
    ghost var ino0 := tree.ino;
    assert !HasName(ino0[ROOT].ents, "d") && ino0[2].kind == Free && Live(ino0[ROOT]);
    var d := tree.Create(Some(ROOT), "d", Dir, Some(2), true, true);
    ghost var ino1 := tree.ino;
    ghost var k: nat :| CanPlace(ino0, ROOT, k, "d") && ino1 == Named(ino0, 2, NewDir(2, ROOT), ROOT, k, "d", 1);
    Made(ino0, ino1, k);
    var gone := tree.SysUnlink(Some(ROOT), "d");
    ghost var k2: nat, i2: nat :|
      && NamedAt(ino1, ROOT, k2, i2) && ino1[ROOT].ents[k2].name == "d" && i2 != ROOT && ino1[i2].nlink >= 1
      && Less(ino1[i2]) <= ino1[ROOT].nlink && tree.ino == Unnamed2(ino1, ROOT, k2, Less(ino1[i2]), i2);
    Removed(ino1, k2, i2, tree.ino);
    assert !HasName(tree.ino[2].ents, "f");
    ghost var ino2 := tree.ino;
    var f := tree.Create(Some(2), "f", Plain, Some(3), true, true);
    ghost var m: nat :| CanPlace(ino2, 2, m, "f") && tree.ino == Named(ino2, 3, Inode(Plain, 1, []), 2, m, "f", 0);
    NamedThere(ino2, m, tree.ino);
  }

  lemma Made(ino0: seq<Inode>, ino1: seq<Inode>, k: nat)
    requires ino0 == FreshTree(4) && CanPlace(ino0, ROOT, k, "d")
    requires ino1 == Named(ino0, 2, NewDir(2, ROOT), ROOT, k, "d", 1)
    ensures |ino1| == 4 && ino1[ROOT] == Inode(Dir, 2, [Ent(".", ROOT), Ent("..", ROOT), Ent("d", 2)])
    ensures ino1[2] == Inode(Dir, 1, [Ent(".", 2), Ent("..", ROOT)]) && ino1[3] == Inode(Free, 0, [])
    ensures HasName(ino1[ROOT].ents, "d") && EmptyDir(ino1[2])
  {
    ShortIs(2);
    assert ino1[ROOT].ents[2].name == "d";
  }

  lemma Removed(ino1: seq<Inode>, k: nat, i: nat, ino2: seq<Inode>)
    requires |ino1| == 4 && ino1[ROOT] == Inode(Dir, 2, [Ent(".", ROOT), Ent("..", ROOT), Ent("d", 2)])
    requires ino1[2] == Inode(Dir, 1, [Ent(".", 2), Ent("..", ROOT)]) && ino1[3] == Inode(Free, 0, [])
    requires NamedAt(ino1, ROOT, k, i) && ino1[ROOT].ents[k].name == "d" && i != ROOT && ino1[i].nlink >= 1
    requires Less(ino1[i]) <= ino1[ROOT].nlink && ino2 == Unnamed2(ino1, ROOT, k, Less(ino1[i]), i)
    ensures |ino2| == 4 && ino2[2] == Inode(Dir, 0, [Ent(".", 2), Ent("..", ROOT)]) && ino2[3] == Inode(Free, 0, [])
  {
    assert k == 2 && i == 2;
  }

  lemma NamedThere(ino2: seq<Inode>, m: nat, ino3: seq<Inode>)
    requires |ino2| == 4 && CanPlace(ino2, 2, m, "f") && ino3 == Named(ino2, 3, Inode(Plain, 1, []), 2, m, "f", 0)
    ensures |ino3| == 4 && ino3[3] == Inode(Plain, 1, [])
  {
  }

  lemma FreeIs(ino: seq<Inode>, home: Homes, i: nat)
    requires Inv(ino, home) && i < |ino| && ino[i].kind == Free
    ensures ino[i] == Inode(Free, 0, [])
  {
    assert DirOk(ino, home, i);
  }

  lemma PlainEmpty(ino: seq<Inode>, home: Homes, i: nat)
    requires Inv(ino, home) && i < |ino| && ino[i].kind == Plain
    ensures ino[i].ents == []
  {
    assert DirOk(ino, home, i);
  }

  /** Any entry found but "." and ".." is one that can be removed, and its directory has a name. */
  lemma FoundLate(ino: seq<Inode>, home: Homes, dp: nat, k: nat, name: string)
    requires Inv(ino, home) && 0 < dp < |ino| && ino[dp].kind == Dir && k < |ino[dp].ents| && ino[dp].ents[k].inum != 0
    requires ino[dp].ents[k].name == name && name != "." && name != ".."
    ensures NamedAt(ino, dp, k, ino[dp].ents[k].inum)
  {
    assert DirOk(ino, home, dp) && EntryOk(ino, home, dp, k);
  }

  /** Whatever a live directory's entry names exists; a plain file has a link. A directory without a
      name has nothing but its dots, and only its ".." may lead to a free inode. */
  lemma Pointed(ino: seq<Inode>, home: Homes, dp: nat, k: nat)
    requires Inv(ino, home) && 0 < dp < |ino| && ino[dp].kind == Dir && k < |ino[dp].ents| && ino[dp].ents[k].inum != 0
    ensures ino[dp].ents[k].inum < |ino|
    ensures Live(ino[dp]) && ino[ino[dp].ents[k].inum].kind == Plain ==> ino[ino[dp].ents[k].inum].nlink >= 1
    ensures ino[ino[dp].ents[k].inum].kind == Free ==> !Live(ino[dp]) && k == 1 && ino[dp].ents[k].name == ".."
  {
    hide Count, CountIn;
    assert DirOk(ino, home, dp) && EntryOk(ino, home, dp, k);
    HomeLive(ino, home, dp);
    if k >= 2 { NamedHasLink(ino, home, dp, k, ino[dp].ents[k].inum); }
  }

  lemma UpAndDown(n: short)
    ensures Short(Short(n + 1) - 1) == n
  {
  }
}
