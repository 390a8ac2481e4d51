/** Block accounting: the bitmap against what can be reached from the root by
    following the pointers stored on the disk. */
module Reachability {
  import opened Volume
  import opened FileChain
  import opened DirChain
  import opened DirOps
  import opened FsTree

  /** A pointer field of an inode. */
  datatype Label = Next | Slot(i: nat) | Listed(k: nat)

  /** The block number in a pointer field, 0 if there is none. */
  function Target(d: Disk, a: Inum, l: Label): Inum {
    match At(d, a)
    case Raw(_) => 0
    case FileNode(n) => (match l
                         case Next => n.next
                         case Slot(i) => if i < |n.slots| then n.slots[i] else 0
                         case Listed(_) => 0)
    case DirNode(n) => (match l
                        case Next => n.next
                        case Slot(_) => 0
                        case Listed(k) => if k < |n.entries| then n.entries[k].inum else 0)
  }

  ghost predicate Edge(d: Disk, a: Inum, l: Label, b: Inum) {
    b != 0 && Target(d, a, l) == b
  }

  ghost predicate Points(d: Disk, a: Inum, b: Inum) {
    exists l :: Edge(d, a, l, b)
  }

  /** A way from the root along pointers. */
  ghost predicate Path(d: Disk, p: seq<Inum>) {
    |p| > 0 && p[0] == ROOT && forall i :: 0 <= i < |p| - 1 ==> Points(d, p[i], p[i + 1])
  }

  ghost predicate PathTo(d: Disk, p: seq<Inum>, b: Inum) {
    Path(d, p) && p[|p| - 1] == b
  }

  ghost predicate Reach(d: Disk, b: Inum) {
    exists p :: PathTo(d, p, b)
  }

  /** What a pointer out of a block of that role leads to. */
  ghost predicate Fits(d: Disk, role: Roles, x: Rep, a: Inum, l: Label, b: Inum)
    requires a in role
  {
    b in role &&
    match role[a]
    case Reserved => false
    case Data(_, _) => false
    case Inode(f, j) => (match l
                         case Next => role[b] == Inode(f, j + 1)
                         case Slot(i) => i < DIRECT && role[b] == Data(f, DIRECT * j + i)
                         case Listed(_) => false)
    case Dir(c, j) => (match l
                       case Next => role[b] == Dir(c, j + 1)
                       case Slot(_) => false
                       case Listed(k) => && k < |Ent(d, a)| && Ent(d, a)[k].inum == b && b in x.parent && x.parent[b] == c
                                         && (role[b] == Inode(b, 0) || role[b] == Dir(b, 0)))
  }

  lemma OutOfFile(d: Disk, role: Roles, x: Rep, a: Inum, l: Label, b: Inum)
    requires StoreOk(d, role, x) && a in role && role[a].Inode? && Edge(d, a, l, b)
    ensures Fits(d, role, x, a, l, b)
  {
    var f, j := role[a].file, role[a].j;
    assert BackOk(role, x, a);
    assert FileHere(d, role, x, f);
    var r := x.files[f];
    assert InodeOk(d, role, f, r, j);
    if l.Next? {
      assert InodeOk(d, role, f, r, j + 1);
    } else if l.Slot? {
      assert At(d, a).file.slots[l.i] == SlotOf(r, DIRECT * j + l.i);
      assert DataOk(d, role, f, r, DIRECT * j + l.i);
    }
  }

  lemma OutOfData(d: Disk, role: Roles, x: Rep, a: Inum, l: Label)
    requires StoreOk(d, role, x) && a in role && role[a].Data?
    ensures Target(d, a, l) == 0
  {
    assert BackOk(role, x, a);
    assert FileHere(d, role, x, role[a].file);
    assert DataOk(d, role, role[a].file, x.files[role[a].file], role[a].k);
  }

  /** Entry k of block t is an entry of the directory. */
  lemma EntryInAll(d: Disk, bs: seq<Inum>, t: nat, k: nat)
    requires t < |bs| && k < |Ent(d, bs[t])|
    ensures var i := |All(d, bs[..t])| + k; i < |All(d, bs)| && All(d, bs)[i] == Ent(d, bs[t])[k]
  {
    AllAt(d, bs, t);
  }

  lemma OutOfDir(d: Disk, role: Roles, x: Rep, a: Inum, l: Label, b: Inum)
    requires FsOk(d, role, x) && a in role && role[a].Dir? && Edge(d, a, l, b)
    ensures Fits(d, role, x, a, l, b)
  {
    var c, j := role[a].dir, role[a].j;
    assert BackOk(role, x, a);
    assert DirHere(d, role, x, c);
    var bs := x.dirs[c];
    assert BlockOk(d, role, c, bs, j);
    if l.Next? {
      assert BlockOk(d, role, c, bs, j + 1);
    } else if l.Listed? {
      EntryInAll(d, bs, j, l.k);
      assert Lists(All(d, bs), b);
      assert ListOk(d, x, c, b);
      assert ChildOk(x, b);
      InUse(d, role, x, b);
    }
  }

  lemma EdgeFits(d: Disk, role: Roles, x: Rep, a: Inum, l: Label, b: Inum)
    requires FsOk(d, role, x) && a in role && !role[a].Reserved? && Edge(d, a, l, b)
    ensures Fits(d, role, x, a, l, b)
  {
    if role[a].Inode? {
      OutOfFile(d, role, x, a, l, b);
    } else if role[a].Data? {
      OutOfData(d, role, x, a, l);
    } else {
      OutOfDir(d, role, x, a, l, b);
    }
  }

  // ----- everything in use is reached -----

  lemma ReachOn(d: Disk, a: Inum, l: Label, b: Inum)
    requires Reach(d, a) && Edge(d, a, l, b)
    ensures Reach(d, b)
  {
    var p :| PathTo(d, p, a);
    var q := p + [b];
    forall i | 0 <= i < |q| - 1 ensures Points(d, q[i], q[i + 1]) {
      if i < |p| - 1 {
        assert Points(d, p[i], p[i + 1]);
      }
    }
    assert PathTo(d, q, b);
  }

  lemma {:induction false} ReachBlock(d: Disk, role: Roles, x: Rep, c: Inum, j: nat)
    requires StoreOk(d, role, x) && c in x.dirs && j < |x.dirs[c]| && Reach(d, c)
    ensures Reach(d, x.dirs[c][j])
  {
    var bs := x.dirs[c];
    assert DirHere(d, role, x, c);
    if j > 0 {
      ReachBlock(d, role, x, c, j - 1);
      BlockOf(d, role, c, bs, j);
      assert BlockOk(d, role, c, bs, j - 1);
      assert Edge(d, bs[j - 1], Next, bs[j]);
      ReachOn(d, bs[j - 1], Next, bs[j]);
    }
  }

  lemma {:induction false} ReachInode(d: Disk, role: Roles, x: Rep, f: Inum, j: nat)
    requires StoreOk(d, role, x) && f in x.files && j < |x.files[f].inodes| && Reach(d, f)
    ensures Reach(d, x.files[f].inodes[j])
  {
    var r := x.files[f];
    assert FileHere(d, role, x, f);
    if j > 0 {
      ReachInode(d, role, x, f, j - 1);
      Members(d, role, f, r);
      assert Holds(r, r.inodes[j]);
      assert InodeOk(d, role, f, r, j - 1);
      ReachOn(d, r.inodes[j - 1], Next, r.inodes[j]);
    }
  }

  lemma ReachData(d: Disk, role: Roles, x: Rep, f: Inum, k: nat)
    requires StoreOk(d, role, x) && f in x.files && k < |x.files[f].blocks| && Reach(d, f)
    ensures Reach(d, x.files[f].blocks[k])
  {
    var r := x.files[f];
    assert FileHere(d, role, x, f);
    var j, i := k / DIRECT, k % DIRECT;
    ReachInode(d, role, x, f, j);
    Members(d, role, f, r);
    assert Holds(r, r.blocks[k]);
    assert InodeOk(d, role, f, r, j);
    assert At(d, r.inodes[j]).file.slots[i] == SlotOf(r, DIRECT * j + i);
    ReachOn(d, r.inodes[j], Slot(i), r.blocks[k]);
  }

  lemma {:induction false} Locate(d: Disk, bs: seq<Inum>, i: nat) returns (t: nat, k: nat)
    requires i < |All(d, bs)|
    ensures t < |bs| && k < |Ent(d, bs[t])| && Ent(d, bs[t])[k] == All(d, bs)[i]
  {
    var front := bs[..|bs| - 1];
    if i < |All(d, front)| {
      t, k := Locate(d, front, i);
    } else {
      t, k := |bs| - 1, i - |All(d, front)|;
    }
  }

  lemma ReachTop(d: Disk, role: Roles, x: Rep, c: Inum)
    requires FsOk(d, role, x) && (c in x.files || c in x.dirs)
    ensures Reach(d, c)
    decreases if c in x.rank then x.rank[c] else 0
  {
    if c == ROOT {
      assert PathTo(d, [ROOT], ROOT);
    } else {
      assert ChildOk(x, c);
      var a := x.parent[c];
      ReachTop(d, role, x, a);
      assert ListOk(d, x, a, c);
      InUse(d, role, x, c);
      ReachListed(d, role, x, a, c);
    }
  }

  lemma ReachListed(d: Disk, role: Roles, x: Rep, a: Inum, c: Inum)
    requires StoreOk(d, role, x) && a in x.dirs && Reach(d, a) && Lists(All(d, x.dirs[a]), c) && c != 0
    ensures Reach(d, c)
  {
    var bs := x.dirs[a];
    var i :| 0 <= i < |All(d, bs)| && All(d, bs)[i].inum == c;
    var t, k := Locate(d, bs, i);
    ReachBlock(d, role, x, a, t);
    assert DirHere(d, role, x, a);
    assert BlockOk(d, role, a, bs, t);
    ReachOn(d, bs[t], Listed(k), c);
  }

  lemma UsedIsReached(d: Disk, role: Roles, x: Rep, b: Inum)
    requires FsOk(d, role, x) && b in role && !role[b].Reserved?
    ensures Reach(d, b)
  {
    assert BackOk(role, x, b);
    match role[b]
    case Inode(f, j) =>
      ReachTop(d, role, x, f);
      ReachInode(d, role, x, f, j);
    case Data(f, k) =>
      ReachTop(d, role, x, f);
      ReachData(d, role, x, f, k);
    case Dir(c, j) =>
      ReachTop(d, role, x, c);
      ReachBlock(d, role, x, c, j);
  }

  // ----- everything reached is in use -----

  lemma {:induction false} ReachedIsUsed(d: Disk, role: Roles, x: Rep, p: seq<Inum>)
    requires FsOk(d, role, x) && Path(d, p)
    ensures p[|p| - 1] in role && !role[p[|p| - 1]].Reserved?
  {
    if |p| == 1 {
      InUse(d, role, x, ROOT);
    } else {
      var q := p[..|p| - 1];
      forall i | 0 <= i < |q| - 1 ensures Points(d, q[i], q[i + 1]) {
        assert Points(d, p[i], p[i + 1]);
      }
      ReachedIsUsed(d, role, x, q);
      assert Points(d, p[|p| - 2], p[|p| - 1]);
      var l :| Edge(d, p[|p| - 2], l, p[|p| - 1]);
      EdgeFits(d, role, x, p[|p| - 2], l, p[|p| - 1]);
    }
  }

  /** The bits set in the bitmap are exactly those of the reserved blocks and of the
      blocks reachable from the root, and those are two different kinds. */
  lemma BitmapIsReachability(d: Disk, role: Roles, x: Rep, b: Inum)
    requires FsOk(d, role, x) && b < CAPACITY
    ensures Used(d, b) <==> IsReserved(b) || Reach(d, b)
    ensures !(IsReserved(b) && Reach(d, b))
  {
    assert Used(d, b) <==> b in role;
    if Reach(d, b) {
      var p :| PathTo(d, p, b);
      ReachedIsUsed(d, role, x, p);
    }
    if b in role && !role[b].Reserved? {
      UsedIsReached(d, role, x, b);
    }
  }
}
