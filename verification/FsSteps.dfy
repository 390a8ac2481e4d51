/** create, mkdir and the steps that change only times keep the file system sound. */
module FsSteps {
  import opened Volume
  import opened FileChain
  import opened DirChain
  import opened DirInsert
  import opened FsTree

  /** A new empty file or directory `ino`, listed in `a`, whose blocks are now `bs`. */
  function WithNew(x: Rep, a: Inum, bs: seq<Inum>, ino: Inum, p: Purpose): Rep
    requires a in x.rank
  {
    var y := x.(parent := x.parent[ino := a], rank := x.rank[ino := x.rank[a] + 1], dirs := x.dirs[a := bs]);
    if p.NewDir? then y.(dirs := y.dirs[ino := [ino]])
    else y.(files := y.files[ino := FileRep([ino], [])], content := y.content[ino := []])
  }

  lemma RankOf(d: Disk, x: Rep, a: Inum)
    requires TreeOk(d, x) && a in x.dirs
    ensures a in x.rank
  {
    if a != ROOT {
      assert ChildOk(x, a);
    }
  }

  /** Only directory `a` and the new block differ. */
  lemma GrewByKeeps(d: Disk, role: Roles, d': Disk, role': Roles, a: Inum, ino: Inum, g: Inum)
    requires BitsOk(d, role) && DirGrewBy(d, role, d', role', a, ino) && g != a
    ensures Kept(d, role, d', role', g)
  {
  }

  /** The entries of a sound directory lead to blocks in use. */
  lemma ListedInUse(d: Disk, role: Roles, x: Rep, a: Inum, i: nat)
    requires FsOk(d, role, x) && a in x.dirs && i < |All(d, x.dirs[a])|
    ensures All(d, x.dirs[a])[i].inum in role && All(d, x.dirs[a])[i].inum in x.parent
    ensures x.parent[All(d, x.dirs[a])[i].inum] == a
  {
    var c := All(d, x.dirs[a])[i].inum;
    assert Lists(All(d, x.dirs[a]), c);
    assert ListOk(d, x, a, c);
    assert ChildOk(x, c);
    InUse(d, role, x, c);
  }

  lemma InsertedLists(xs: seq<Entry>, e: Entry, ys: seq<Entry>, c: Inum)
    ensures Lists(xs + [e] + ys, c) <==> Lists(xs + ys, c) || c == e.inum
  {
    var all, rest := xs + [e] + ys, xs + ys;
    if c == e.inum {
      assert all[|xs|].inum == c;
    }
    if i :| 0 <= i < |rest| && rest[i].inum == c {
      assert all[if i < |xs| then i else i + 1] == rest[i];
    }
    if i :| 0 <= i < |all| && i != |xs| && all[i].inum == c {
      assert rest[if i < |xs| then i else i - 1] == all[i];
    }
  }

  lemma InsertedDistinct(xs: seq<Entry>, e: Entry, ys: seq<Entry>)
    ensures InumsDistinct(xs + [e] + ys) <==> InumsDistinct(xs + ys) && !Lists(xs + ys, e.inum)
  {
    var all, rest := xs + [e] + ys, xs + ys;
    assert all[|xs|] == e;
    assert forall i :: 0 <= i < |rest| ==> rest[i] == all[if i < |xs| then i else i + 1];
    if InumsDistinct(rest) && !Lists(rest, e.inum) {
      forall i, j | 0 <= i < j < |all| ensures all[i].inum != all[j].inum {
        assert i != |xs| ==> all[i] == rest[if i < |xs| then i else i - 1];
        assert j != |xs| ==> all[j] == rest[if j < |xs| then j else j - 1];
      }
    }
  }

  /** The directory after create or mkdir. */
  lemma ParentAfter(d: Disk, role: Roles, x: Rep, a: Inum, d': Disk, role': Roles, bs': seq<Inum>,
                    e: Entry, n: Node, p: Purpose)
    requires FsOk(d, role, x) && a in x.dirs && Inserted(d, role, a, x.dirs[a], d', role', bs', e, n, p)
    ensures InumsDistinct(All(d', bs'))
    ensures forall c :: Lists(All(d', bs'), c) <==> (c in x.parent && x.parent[c] == a) || c == e.inum
  {
    var bs := x.dirs[a];
    SeenAndUnseen(d, bs);
    assert DirHere(d, role, x, a);
    assert !Lists(All(d, bs), e.inum) by {
      if i :| 0 <= i < |All(d, bs)| && All(d, bs)[i].inum == e.inum {
        ListedInUse(d, role, x, a, i);
      }
    }
    InsertedDistinct(Seen(d, bs), e, Unseen(d, bs));
    forall c ensures Lists(All(d', bs'), c) <==> (c in x.parent && x.parent[c] == a) || c == e.inum {
      InsertedLists(Seen(d, bs), e, Unseen(d, bs), c);
      assert ListOk(d, x, a, c);
    }
  }

  /** Files and the other directories after create or mkdir in `a`. */
  lemma OthersAfter(d: Disk, role: Roles, x: Rep, a: Inum, d': Disk, role': Roles, ino: Inum, g: Inum)
    requires StoreOk(d, role, x) && a in x.dirs && DirGrewBy(d, role, d', role', a, ino) && g != a
    ensures g in x.files ==> g in x.content && Contains(d', role', g, x.files[g], x.content[g])
    ensures g in x.dirs ==> DirOk(d', role', g, x.dirs[g]) && InumsDistinct(All(d', x.dirs[g]))
                            && All(d', x.dirs[g]) == All(d, x.dirs[g])
  {
    GrewByKeeps(d, role, d', role', a, ino, g);
    if g in x.files {
      assert FileHere(d, role, x, g);
      FileFrame(d, role, g, x.files[g], x.content[g], d', role');
    }
    if g in x.dirs {
      assert DirHere(d, role, x, g);
      DirFrame(d, role, g, x.dirs[g], d', role');
    }
  }

  lemma NotBoth(d: Disk, role: Roles, x: Rep, f: Inum)
    requires StoreOk(d, role, x)
    ensures !(f in x.files && f in x.dirs)
    ensures f in x.files <==> f in x.content
  {
    InUse(d, role, x, f);
    assert f in x.files || f in x.content ==> FileHere(d, role, x, f);
  }

  lemma NewFileHere(d: Disk, role: Roles, ino: Inum, now: nat)
    requires ino in role && role[ino] == Inode(ino, 0) && At(d, ino) == FileBlock(now)
    ensures Contains(d, role, ino, FileRep([ino], []), [])
  {
    assert InodeOk(d, role, ino, FileRep([ino], []), 0);
  }

  lemma NewDirHere(d: Disk, role: Roles, ino: Inum, now: nat)
    requires ino in role && role[ino] == Dir(ino, 0) && At(d, ino) == DirBlock(now)
    ensures DirOk(d, role, ino, [ino]) && All(d, [ino]) == []
  {
    assert BlockOk(d, role, ino, [ino], 0);
    assert [ino][..0] == [];
  }

  /** The new block holds an empty file or directory. */
  ghost predicate Made(d: Disk, role: Roles, ino: Inum, p: Purpose) {
    && ino in role && role[ino] == RoleOf(p, ino) && !p.For?
    && (p.NewFile? ==> exists now :: At(d, ino) == FileBlock(now))
    && (p.NewDir? ==> exists now :: At(d, ino) == DirBlock(now))
  }

  lemma FilesAfter(d: Disk, role: Roles, x: Rep, a: Inum, d': Disk, role': Roles, bs': seq<Inum>, ino: Inum, p: Purpose)
    requires StoreOk(d, role, x) && a in x.dirs && a in x.rank
    requires DirGrewBy(d, role, d', role', a, ino) && Made(d', role', ino, p)
    ensures FilesOk(d', role', WithNew(x, a, bs', ino, p))
  {
    var x' := WithNew(x, a, bs', ino, p);
    NotBoth(d, role, x, a);
    forall f | f in x'.files || f in x'.content ensures FileHere(d', role', x', f) {
      NotBoth(d, role, x, f);
      if f == ino && p.NewFile? {
        var now :| At(d', ino) == FileBlock(now);
        NewFileHere(d', role', ino, now);
      } else {
        OthersAfter(d, role, x, a, d', role', ino, f);
      }
    }
  }

  lemma DirsAfter(d: Disk, role: Roles, x: Rep, a: Inum, d': Disk, role': Roles, bs': seq<Inum>, ino: Inum, p: Purpose)
    requires StoreOk(d, role, x) && a in x.dirs && a in x.rank && a != ino
    requires DirGrewBy(d, role, d', role', a, ino) && Made(d', role', ino, p)
    requires DirOk(d', role', a, bs') && InumsDistinct(All(d', bs'))
    ensures DirsOk(d', role', WithNew(x, a, bs', ino, p))
    ensures p.NewDir? ==> All(d', [ino]) == []
  {
    var x' := WithNew(x, a, bs', ino, p);
    if p.NewDir? {
      var now :| At(d', ino) == DirBlock(now);
      NewDirHere(d', role', ino, now);
    }
    forall g | g in x'.dirs ensures DirHere(d', role', x', g) {
      if g != a && !(g == ino && p.NewDir?) {
        OthersAfter(d, role, x, a, d', role', ino, g);
      }
    }
  }

  /** The chain of the directory is the old one, perhaps with new blocks behind. */
  ghost predicate Longer(d': Disk, role: Roles, role': Roles, a: Inum, bs: seq<Inum>, bs': seq<Inum>, ino: Inum) {
    && DirOk(d', role', a, bs') && |bs| <= |bs'| && bs'[..|bs|] == bs
    && forall b :: b in role' && b !in role ==> b == ino || b in bs'
  }

  lemma BackAfter(role: Roles, x: Rep, a: Inum, d': Disk, role': Roles, bs': seq<Inum>, ino: Inum, p: Purpose)
    requires AllBack(role, x) && a in x.dirs && a in x.rank && RolesGrow(role, role') && a != ino
    requires Longer(d', role, role', a, x.dirs[a], bs', ino) && Made(d', role', ino, p) && ino !in role
    requires ino !in x.files && ino !in x.dirs
    ensures AllBack(role', WithNew(x, a, bs', ino, p))
  {
    var x', bs := WithNew(x, a, bs', ino, p), x.dirs[a];
    assert forall j :: 0 <= j < |bs| ==> bs[j] == bs'[..|bs|][j];
    forall b | b in role' ensures BackOk(role', x', b) {
      if b in role {
        assert BackOk(role, x, b);
      } else if b != ino {
        var j :| 0 <= j < |bs'| && bs'[j] == b;
        assert BlockOk(d', role', a, bs', j);
      }
    }
  }

  lemma PlacedAfter(x: Rep, a: Inum, bs': seq<Inum>, ino: Inum, p: Purpose)
    requires Placed(x) && a in x.dirs && a in x.rank && ino != ROOT && a != ino
    requires ino !in x.files && ino !in x.dirs
    ensures Placed(WithNew(x, a, bs', ino, p)) && ino !in x.parent
    ensures forall c :: c in x.parent ==> x.parent[c] != ino
  {
    var x' := WithNew(x, a, bs', ino, p);
    forall c | c in x.parent ensures c != ino && x.parent[c] != ino {
      assert ChildOk(x, c);
    }
    forall c | c in x'.parent ensures ChildOk(x', c) {
      if c != ino {
        assert ChildOk(x, c);
      }
    }
  }

  lemma ListsAfter(d: Disk, role: Roles, x: Rep, a: Inum, d': Disk, role': Roles, bs': seq<Inum>, ino: Inum, p: Purpose)
    requires FsOk(d, role, x) && a in x.dirs && a in x.rank && a != ino && ino !in x.parent && ino !in x.dirs
    requires DirGrewBy(d, role, d', role', a, ino)
    requires forall c :: Lists(All(d', bs'), c) <==> (c in x.parent && x.parent[c] == a) || c == ino
    requires p.NewDir? ==> All(d', [ino]) == []
    requires forall c :: c in x.parent ==> x.parent[c] != ino
    ensures var x' := WithNew(x, a, bs', ino, p); forall g, c :: g in x'.dirs ==> ListOk(d', x', g, c)
  {
    var x' := WithNew(x, a, bs', ino, p);
    forall g, c | g in x'.dirs ensures ListOk(d', x', g, c) {
      if g != a && g in x.dirs {
        OthersAfter(d, role, x, a, d', role', ino, g);
        assert ListOk(d, x, g, c);
      }
      ListAfter(d, x, a, d', bs', ino, p, g, c);
    }
  }

  lemma ListAfter(d: Disk, x: Rep, a: Inum, d': Disk, bs': seq<Inum>, ino: Inum, p: Purpose, g: Inum, c: Inum)
    requires a in x.dirs && a in x.rank && a != ino && ino !in x.parent && ino !in x.dirs
    requires g in WithNew(x, a, bs', ino, p).dirs
    requires g != a && g in x.dirs ==> All(d', x.dirs[g]) == All(d, x.dirs[g]) && ListOk(d, x, g, c)
    requires Lists(All(d', bs'), c) <==> (c in x.parent && x.parent[c] == a) || c == ino
    requires p.NewDir? ==> All(d', [ino]) == []
    requires c in x.parent ==> x.parent[c] != ino
    ensures ListOk(d', WithNew(x, a, bs', ino, p), g, c)
  {
  }

  /** What the steps below need of an insertion. */
  lemma InsertedParts(d: Disk, role: Roles, x: Rep, a: Inum, d': Disk, role': Roles, bs': seq<Inum>, e: Entry, n: Node, p: Purpose)
    requires StoreOk(d, role, x) && a in x.dirs && ROOT in x.dirs && Inserted(d, role, a, x.dirs[a], d', role', bs', e, n, p)
    ensures DirGrewBy(d, role, d', role', a, e.inum) && Longer(d', role, role', a, x.dirs[a], bs', e.inum)
    ensures e.inum !in role && e.inum !in x.files && e.inum !in x.dirs && e.inum != a && e.inum != ROOT
  {
    InUse(d, role, x, e.inum);
  }

  /** Create and mkdir keep the file system sound. */
  lemma InsertKeeps(d: Disk, role: Roles, x: Rep, a: Inum, d': Disk, role': Roles, bs': seq<Inum>, e: Entry, n: Node, p: Purpose)
    requires FsOk(d, role, x) && a in x.dirs && a in x.rank && BitsOk(d', role')
    requires Inserted(d, role, a, x.dirs[a], d', role', bs', e, n, p) && Made(d', role', e.inum, p)
    ensures FsOk(d', role', WithNew(x, a, bs', e.inum, p))
  {
    InsertedParts(d, role, x, a, d', role', bs', e, n, p);
    ParentAfter(d, role, x, a, d', role', bs', e, n, p);
    PlacedAfter(x, a, bs', e.inum, p);
    InsertKeepsFrom(d, role, x, a, d', role', bs', e.inum, p);
  }

  lemma InsertKeepsFrom(d: Disk, role: Roles, x: Rep, a: Inum, d': Disk, role': Roles, bs': seq<Inum>, ino: Inum, p: Purpose)
    requires FsOk(d, role, x) && a in x.dirs && a in x.rank && BitsOk(d', role') && Made(d', role', ino, p)
    requires DirGrewBy(d, role, d', role', a, ino) && Longer(d', role, role', a, x.dirs[a], bs', ino)
    requires ino !in role && ino !in x.files && ino !in x.dirs && ino != a && ino != ROOT
    requires InumsDistinct(All(d', bs'))
    requires forall c :: Lists(All(d', bs'), c) <==> (c in x.parent && x.parent[c] == a) || c == ino
    ensures FsOk(d', role', WithNew(x, a, bs', ino, p))
  {
    FilesAfter(d, role, x, a, d', role', bs', ino, p);
    DirsAfter(d, role, x, a, d', role', bs', ino, p);
    BackAfter(role, x, a, d', role', bs', ino, p);
    PlacedAfter(x, a, bs', ino, p);
    ListsAfter(d, role, x, a, d', role', bs', ino, p);
  }

  // ----- only times change -----

  lemma TimesOthers(d: Disk, role: Roles, x: Rep, a: Inum, d': Disk, g: Inum)
    requires StoreOk(d, role, x) && a in x.dirs && OnlyTimes(d, role, a, x.dirs[a], d', role)
    ensures g in x.files ==> FileHere(d', role, x, g)
    ensures g in x.dirs ==> DirHere(d', role, x, g) && All(d', x.dirs[g]) == All(d, x.dirs[g])
  {
    InUse(d, role, x, a);
    if g in x.files {
      assert FileHere(d, role, x, g);
      InUse(d, role, x, g);
      FileFrame(d, role, g, x.files[g], x.content[g], d', role);
    }
    if g in x.dirs {
      assert DirHere(d, role, x, g);
      if g == a {
        SameSeen(d, x.dirs[a], d');
      } else {
        DirFrame(d, role, g, x.dirs[g], d', role);
      }
    }
  }

  /** A step that changes only times keeps the file system sound, with the same files
      and directories. */
  lemma TimesKeep(d: Disk, role: Roles, x: Rep, a: Inum, d': Disk, role': Roles)
    requires FsOk(d, role, x) && a in x.dirs && OnlyTimes(d, role, a, x.dirs[a], d', role') && BitsOk(d', role')
    ensures FsOk(d', role', x)
  {
    forall f | f in x.files || f in x.content ensures FileHere(d', role', x, f) {
      NotBoth(d, role, x, f);
      TimesOthers(d, role, x, a, d', f);
    }
    forall g | g in x.dirs ensures DirHere(d', role', x, g) && All(d', x.dirs[g]) == All(d, x.dirs[g]) {
      TimesOthers(d, role, x, a, d', g);
    }
    forall g, c | g in x.dirs ensures ListOk(d', x, g, c) {
      assert ListOk(d, x, g, c);
    }
  }
}
