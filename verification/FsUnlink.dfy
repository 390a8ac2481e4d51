/** unlink keeps the file system sound. */
module FsUnlink {
  import opened Volume
  import opened FileChain
  import opened FileSteps
  import opened DirChain
  import opened DirOps
  import opened DirRemove
  import opened DirMap
  import opened FsTree
  import opened FsSteps

  function WithoutFile(x: Rep, f: Inum): Rep {
    x.(files := x.files - {f}, content := x.content - {f}, parent := x.parent - {f})
  }

  /** What unlink of file `f` from directory `a` leaves alone. */
  ghost predicate Shrunk(d: Disk, role: Roles, d': Disk, role': Roles, a: Inum, r: FileRep) {
    && role' == role - BlocksOf(r)
    && (forall b :: b in role && !OfDir(role, b, a) && !IsBitmap(b) ==> At(d', b) == At(d, b))
  }

  lemma ShrunkKeeps(d: Disk, role: Roles, x: Rep, d': Disk, role': Roles, a: Inum, f: Inum, g: Inum)
    requires StoreOk(d, role, x) && f in x.files && Shrunk(d, role, d', role', a, x.files[f]) && g != a && g != f
    ensures Kept(d, role, d', role', g)
  {
    assert FileHere(d, role, x, f);
    forall b | b in role && (Mine(role, b, g) || OfDir(role, b, g))
      ensures b in role' && role'[b] == role[b] && At(d', b) == At(d, b)
    {
      if Holds(x.files[f], b) {
        WholeBack(d, role, f, x.files[f], b);
      }
    }
  }

  lemma OthersRemain(d: Disk, role: Roles, x: Rep, d': Disk, role': Roles, a: Inum, f: Inum, g: Inum)
    requires StoreOk(d, role, x) && f in x.files && Shrunk(d, role, d', role', a, x.files[f]) && g != a && g != f
    ensures g in x.files ==> g in x.content && Contains(d', role', g, x.files[g], x.content[g])
    ensures g in x.dirs ==> DirOk(d', role', g, x.dirs[g]) && InumsDistinct(All(d', x.dirs[g]))
                            && All(d', x.dirs[g]) == All(d, x.dirs[g])
  {
    ShrunkKeeps(d, role, x, d', role', a, f, g);
    if g in x.files {
      assert FileHere(d, role, x, g);
      FileFrame(d, role, g, x.files[g], x.content[g], d', role');
    }
    if g in x.dirs {
      assert DirHere(d, role, x, g);
      DirFrame(d, role, g, x.dirs[g], d', role');
    }
  }

  lemma FilesRemain(d: Disk, role: Roles, x: Rep, d': Disk, role': Roles, a: Inum, f: Inum)
    requires StoreOk(d, role, x) && f in x.files && a in x.dirs && Shrunk(d, role, d', role', a, x.files[f])
    ensures FilesOk(d', role', WithoutFile(x, f))
  {
    var x' := WithoutFile(x, f);
    NotBoth(d, role, x, a);
    forall g | g in x'.files || g in x'.content ensures FileHere(d', role', x', g) {
      NotBoth(d, role, x, g);
      OthersRemain(d, role, x, d', role', a, f, g);
    }
  }

  lemma BackRemains(role: Roles, x: Rep, role': Roles, f: Inum)
    requires AllBack(role, x) && f in x.files && role' == role - BlocksOf(x.files[f])
    ensures AllBack(role', WithoutFile(x, f))
  {
    var x' := WithoutFile(x, f);
    forall b | b in role' ensures BackOk(role', x', b) {
      assert BackOk(role, x, b);
      assert b !in x.files[f].inodes && b !in x.files[f].blocks;
    }
  }

  lemma DirsRemain(d: Disk, role: Roles, x: Rep, d': Disk, role': Roles, a: Inum, f: Inum)
    requires StoreOk(d, role, x) && f in x.files && a in x.dirs && Shrunk(d, role, d', role', a, x.files[f])
    requires DirOk(d', role', a, x.dirs[a]) && InumsDistinct(All(d', x.dirs[a]))
    ensures DirsOk(d', role', WithoutFile(x, f))
  {
    NotBoth(d, role, x, f);
    forall g | g in x.dirs ensures DirHere(d', role', WithoutFile(x, f), g) {
      if g != a {
        OthersRemain(d, role, x, d', role', a, f, g);
      }
    }
  }

  lemma ListsRemain(d: Disk, role: Roles, x: Rep, d': Disk, role': Roles, a: Inum, f: Inum)
    requires FsOk(d, role, x) && f in x.files && a in x.dirs && Shrunk(d, role, d', role', a, x.files[f])
    requires f in x.parent && x.parent[f] == a
    requires forall c :: Lists(All(d', x.dirs[a]), c) <==> c in x.parent && x.parent[c] == a && c != f
    ensures forall g, c :: g in x.dirs ==> ListOk(d', WithoutFile(x, f), g, c)
  {
    NotBoth(d, role, x, f);
    forall g, c | g in x.dirs ensures ListOk(d', WithoutFile(x, f), g, c) {
      assert ListOk(d, x, g, c);
      if g != a {
        OthersRemain(d, role, x, d', role', a, f, g);
      }
    }
  }

  lemma PlacedRemains(x: Rep, f: Inum)
    requires Placed(x) && f in x.files && f !in x.dirs
    ensures Placed(WithoutFile(x, f))
  {
    var x' := WithoutFile(x, f);
    forall c | c in x'.parent ensures ChildOk(x', c) {
      assert ChildOk(x, c);
    }
  }

  /** The directory after unlink lists everything but the file. */
  lemma ParentRemains(d: Disk, role: Roles, x: Rep, a: Inum, name: string)
    requires FsOk(d, role, x) && a in x.dirs && Named(All(d, x.dirs[a]), name)
    ensures var es, f := Without(All(d, x.dirs[a]), name), Find(All(d, x.dirs[a]), name);
      && InumsDistinct(es) && f in x.parent && x.parent[f] == a
      && forall c :: Lists(es, c) <==> c in x.parent && x.parent[c] == a && c != f
  {
    var all := All(d, x.dirs[a]);
    assert DirHere(d, role, x, a);
    var xs, e, ys := SplitAtFirst(all, name);
    FindAround(xs, e, ys, name);
    InsertedDistinct(xs, e, ys);
    assert all[|xs|] == e;
    ListedInUse(d, role, x, a, |xs|);
    forall c ensures Lists(xs + ys, c) <==> c in x.parent && x.parent[c] == a && c != e.inum {
      InsertedLists(xs, e, ys, c);
      assert ListOk(d, x, a, c);
    }
  }

  /** Unlink of a file keeps the file system sound. */
  lemma UnlinkKeeps(d: Disk, role: Roles, x: Rep, a: Inum, d': Disk, role': Roles, name: string)
    requires FsOk(d, role, x) && a in x.dirs && Named(All(d, x.dirs[a]), name) && BitsOk(d', role')
    requires var f := Find(All(d, x.dirs[a]), name);
      f in x.files && Unlinked(d, role, a, x.dirs[a], d', role', name, x.files[f])
    ensures FsOk(d', role', WithoutFile(x, Find(All(d, x.dirs[a]), name)))
  {
    var f := Find(All(d, x.dirs[a]), name);
    ParentRemains(d, role, x, a, name);
    NotBoth(d, role, x, f);
    assert Shrunk(d, role, d', role', a, x.files[f]);
    FilesRemain(d, role, x, d', role', a, f);
    DirsRemain(d, role, x, d', role', a, f);
    BackRemains(role, x, role', f);
    ListsRemain(d, role, x, d', role', a, f);
    PlacedRemains(x, f);
  }
}
