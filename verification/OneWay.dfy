/** Every block is reached in one way only. */
module OneWay {
  import opened Volume
  import opened DirChain
  import opened DirOps
  import opened FsTree
  import opened Reachability

  lemma {:induction false} PrefixLength(d: Disk, bs: seq<Inum>, t: nat, u: nat)
    requires t < u <= |bs|
    ensures |All(d, bs[..t])| + |Ent(d, bs[t])| <= |All(d, bs[..u])|
  {
    AllTo(d, bs, u - 1);
    if t < u - 1 {
      PrefixLength(d, bs, t, u - 1);
    }
  }

  /** With distinct inums an inum stands in one place of the chain. */
  lemma OnePlace(d: Disk, bs: seq<Inum>, t: nat, k: nat, u: nat, m: nat)
    requires InumsDistinct(All(d, bs))
    requires t < |bs| && k < |Ent(d, bs[t])| && u < |bs| && m < |Ent(d, bs[u])|
    requires Ent(d, bs[t])[k].inum == Ent(d, bs[u])[m].inum
    ensures t == u && k == m
  {
    EntryInAll(d, bs, t, k);
    EntryInAll(d, bs, u, m);
    if t < u {
      PrefixLength(d, bs, t, u);
    } else if u < t {
      PrefixLength(d, bs, u, t);
    }
  }

  lemma SamePlace(d: Disk, role: Roles, x: Rep, a: Inum, l: Label, a': Inum, l': Label, b: Inum)
    requires a in role && a' in role && Fits(d, role, x, a, l, b) && Fits(d, role, x, a', l', b)
    ensures l.Listed? <==> l'.Listed?
    ensures !l.Listed? ==> role[a] == role[a'] && l == l'
    ensures l.Listed? ==> role[a].Dir? && role[a'].Dir? && role[a].dir == role[a'].dir
  {
  }

  lemma SameRole(role: Roles, x: Rep, a: Inum, a': Inum)
    requires AllBack(role, x) && a in role && a' in role && role[a] == role[a'] && !role[a].Reserved?
    ensures a == a'
  {
    assert BackOk(role, x, a) && BackOk(role, x, a');
  }

  lemma SameEntry(d: Disk, role: Roles, x: Rep, a: Inum, k: nat, a': Inum, k': nat, b: Inum)
    requires StoreOk(d, role, x) && a in role && role[a].Dir? && a' in role && role[a'].Dir? && role[a].dir == role[a'].dir
    requires Fits(d, role, x, a, Listed(k), b) && Fits(d, role, x, a', Listed(k'), b)
    ensures a == a' && k == k'
  {
    var c := role[a].dir;
    assert BackOk(role, x, a) && BackOk(role, x, a');
    assert DirHere(d, role, x, c);
    OnePlace(d, x.dirs[c], role[a].j, k, role[a'].j, k');
  }

  lemma NotTheRoot(d: Disk, role: Roles, x: Rep, a: Inum, l: Label, b: Inum)
    requires FsOk(d, role, x) && a in role && Fits(d, role, x, a, l, b)
    ensures b != ROOT
  {
    InUse(d, role, x, ROOT);
    if l.Listed? {
      assert ChildOk(x, b);
    }
  }

  /** At most one pointer field of a block in use leads to a block, and none to the root. */
  lemma OnePointer(d: Disk, role: Roles, x: Rep, a: Inum, l: Label, a': Inum, l': Label, b: Inum)
    requires FsOk(d, role, x) && a in role && !role[a].Reserved? && a' in role && !role[a'].Reserved?
    requires Edge(d, a, l, b) && Edge(d, a', l', b)
    ensures a == a' && l == l' && b != ROOT
  {
    EdgeFits(d, role, x, a, l, b);
    EdgeFits(d, role, x, a', l', b);
    NotTheRoot(d, role, x, a, l, b);
    SamePlace(d, role, x, a, l, a', l', b);
    if l.Listed? {
      SameEntry(d, role, x, a, l.k, a', l'.k, b);
    } else {
      SameRole(role, x, a, a');
    }
  }

  lemma Shorter(d: Disk, p: seq<Inum>)
    requires Path(d, p) && |p| > 1
    ensures Path(d, p[..|p| - 1]) && Points(d, p[|p| - 2], p[|p| - 1])
  {
    var q := p[..|p| - 1];
    forall i | 0 <= i < |q| - 1 ensures Points(d, q[i], q[i + 1]) {
      assert Points(d, p[i], p[i + 1]);
    }
    assert p[|p| - 2 + 1] == p[|p| - 1];
  }

  lemma OneBefore(d: Disk, role: Roles, x: Rep, p: seq<Inum>, a: Inum, l: Label)
    requires FsOk(d, role, x) && Path(d, p) && a in role && !role[a].Reserved? && Edge(d, a, l, p[|p| - 1])
    ensures |p| > 1 && p[|p| - 2] == a
  {
    if |p| == 1 {
      OnePointer(d, role, x, a, l, a, l, ROOT);
    } else {
      Shorter(d, p);
      ReachedIsUsed(d, role, x, p[..|p| - 1]);
      var m :| Edge(d, p[|p| - 2], m, p[|p| - 1]);
      OnePointer(d, role, x, a, l, p[|p| - 2], m, p[|p| - 1]);
    }
  }

  /** There is one path from the root to a block. */
  lemma {:induction false} OnePath(d: Disk, role: Roles, x: Rep, p: seq<Inum>, q: seq<Inum>)
    requires FsOk(d, role, x) && Path(d, p) && Path(d, q) && p[|p| - 1] == q[|q| - 1]
    ensures p == q
    decreases |p|
  {
    if |p| == 1 && |q| == 1 {
    } else if |p| == 1 {
      Shorter(d, q);
      ReachedIsUsed(d, role, x, q[..|q| - 1]);
      var l :| Edge(d, q[|q| - 2], l, q[|q| - 1]);
      OneBefore(d, role, x, p, q[|q| - 2], l);
    } else {
      Shorter(d, p);
      ReachedIsUsed(d, role, x, p[..|p| - 1]);
      var l :| Edge(d, p[|p| - 2], l, p[|p| - 1]);
      OneBefore(d, role, x, q, p[|p| - 2], l);
      Shorter(d, q);
      OnePath(d, role, x, p[..|p| - 1], q[..|q| - 1]);
      assert p == p[..|p| - 1] + [p[|p| - 1]];
      assert q == q[..|q| - 1] + [q[|q| - 1]];
    }
  }
}
