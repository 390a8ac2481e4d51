/** The whole file system: every block in use belongs to exactly one file or
    directory, and the directories form a tree under the root. */
module FsTree {
  import opened Blocks
  import opened Volume
  import opened FileChain
  import opened FileSteps
  import opened DirChain
  import opened DirOps

  /** What is on the volume: the blocks and the bytes of every file, the blocks of
      every directory, the directory each of them is listed in, and its depth. */
  datatype Rep = Rep(files: map<Inum, FileRep>, content: map<Inum, seq<byte>>, dirs: map<Inum, seq<Inum>>,
                     parent: map<Inum, Inum>, rank: map<Inum, nat>)

  /** The block is where its role says it is. */
  ghost predicate BackOk(role: Roles, x: Rep, b: Inum)
    requires b in role
  {
    match role[b]
    case Reserved => true
    case Inode(f, j) => f in x.files && j < |x.files[f].inodes| && x.files[f].inodes[j] == b
    case Data(f, k) => f in x.files && k < |x.files[f].blocks| && x.files[f].blocks[k] == b
    case Dir(a, j) => a in x.dirs && j < |x.dirs[a]| && x.dirs[a][j] == b
  }

  ghost predicate FileHere(d: Disk, role: Roles, x: Rep, f: Inum) {
    f in x.files && f in x.content && Contains(d, role, f, x.files[f], x.content[f])
  }

  ghost predicate DirHere(d: Disk, role: Roles, x: Rep, a: Inum) {
    a in x.dirs && DirOk(d, role, a, x.dirs[a]) && InumsDistinct(All(d, x.dirs[a]))
  }

  ghost predicate FilesOk(d: Disk, role: Roles, x: Rep) {
    forall f {:trigger FileHere(d, role, x, f)} :: f in x.files || f in x.content ==> FileHere(d, role, x, f)
  }

  ghost predicate DirsOk(d: Disk, role: Roles, x: Rep) {
    forall a {:trigger DirHere(d, role, x, a)} :: a in x.dirs ==> DirHere(d, role, x, a)
  }

  ghost predicate AllBack(role: Roles, x: Rep) {
    forall b {:trigger BackOk(role, x, b)} :: b in role ==> BackOk(role, x, b)
  }

  ghost predicate StoreOk(d: Disk, role: Roles, x: Rep) {
    BitsOk(d, role) && FilesOk(d, role, x) && DirsOk(d, role, x) && AllBack(role, x)
  }

  ghost predicate Lists(es: seq<Entry>, c: Inum) {
    exists i :: 0 <= i < |es| && es[i].inum == c
  }

  ghost predicate ListOk(d: Disk, x: Rep, a: Inum, c: Inum)
    requires a in x.dirs
  {
    Lists(All(d, x.dirs[a]), c) <==> c in x.parent && x.parent[c] == a
  }

  ghost predicate ChildOk(x: Rep, c: Inum)
    requires c in x.parent
  {
    && c != ROOT && (c in x.files || c in x.dirs)
    && x.parent[c] in x.dirs
    && c in x.rank && x.parent[c] in x.rank && x.rank[x.parent[c]] < x.rank[c]
  }

  /** Everything but the root is listed once, in a directory above it. */
  ghost predicate TreeOk(d: Disk, x: Rep) {
    && ROOT in x.dirs && ROOT in x.rank
    && Placed(x) && (forall a, c {:trigger ListOk(d, x, a, c)} :: a in x.dirs ==> ListOk(d, x, a, c))
  }

  ghost predicate Placed(x: Rep) {
    && (forall c :: (c in x.files || c in x.dirs) && c != ROOT ==> c in x.parent)
    && (forall c {:trigger ChildOk(x, c)} :: c in x.parent ==> ChildOk(x, c))
  }

  ghost predicate FsOk(d: Disk, role: Roles, x: Rep) {
    StoreOk(d, role, x) && TreeOk(d, x)
  }

  // ----- frames -----

  /** The blocks of file or directory `f` are as they were. */
  ghost predicate Kept(d: Disk, role: Roles, d': Disk, role': Roles, f: Inum) {
    forall b :: b in role && (Mine(role, b, f) || OfDir(role, b, f)) ==>
      b in role' && role'[b] == role[b] && At(d', b) == At(d, b)
  }

  lemma FileFrame(d: Disk, role: Roles, f: Inum, r: FileRep, c: seq<byte>, d': Disk, role': Roles)
    requires Contains(d, role, f, r, c) && Kept(d, role, d', role', f)
    ensures Contains(d', role', f, r, c)
  {
    forall j | 0 <= j < |r.inodes| ensures InodeOk(d', role', f, r, j) && At(d', r.inodes[j]) == At(d, r.inodes[j]) {
      assert InodeOk(d, role, f, r, j) && Mine(role, r.inodes[j], f);
    }
    forall k | 0 <= k < |r.blocks| ensures DataOk(d', role', f, r, k) && At(d', r.blocks[k]) == At(d, r.blocks[k]) {
      assert DataOk(d, role, f, r, k) && Mine(role, r.blocks[k], f);
    }
    assert At(d', r.inodes[0]) == At(d, r.inodes[0]);
    forall p | 0 <= p < BSIZE * |r.blocks| ensures ByteAt(d', r, p) == ByteAt(d, r, p) {
      assert At(d', r.blocks[p / BSIZE]) == At(d, r.blocks[p / BSIZE]);
    }
  }

  lemma DirFrame(d: Disk, role: Roles, a: Inum, bs: seq<Inum>, d': Disk, role': Roles)
    requires DirOk(d, role, a, bs) && Kept(d, role, d', role', a)
    ensures DirOk(d', role', a, bs) && All(d', bs) == All(d, bs)
  {
    forall j | 0 <= j < |bs| ensures BlockOk(d', role', a, bs, j) && At(d', bs[j]) == At(d, bs[j]) {
      assert BlockOk(d, role, a, bs, j) && OfDir(role, bs[j], a);
    }
    AllSame(d, d', bs);
  }

  /** Files and directories are named by their first blocks. */
  lemma InUse(d: Disk, role: Roles, x: Rep, f: Inum)
    requires StoreOk(d, role, x)
    ensures f in x.files ==> f in role && role[f] == Inode(f, 0)
    ensures f in x.dirs ==> f in role && role[f] == Dir(f, 0)
  {
    if f in x.files {
      assert FileHere(d, role, x, f);
      assert InodeOk(d, role, f, x.files[f], 0);
    }
    if f in x.dirs {
      assert DirHere(d, role, x, f);
      assert BlockOk(d, role, f, x.dirs[f], 0);
    }
  }

  lemma WholeFile(d: Disk, role: Roles, x: Rep, f: Inum)
    requires StoreOk(d, role, x) && f in x.files
    ensures Whole(role, f, x.files[f])
  {
    forall b | b in role && Mine(role, b, f) ensures Holds(x.files[f], b) {
      assert BackOk(role, x, b);
    }
  }

  // ----- a file is written or read -----

  function WithFile(x: Rep, f: Inum, r: FileRep, c: seq<byte>): Rep {
    x.(files := x.files[f := r], content := x.content[f := c])
  }

  lemma GrewKeeps(d: Disk, role: Roles, d': Disk, role': Roles, f: Inum, g: Inum)
    requires BitsOk(d, role) && Grew(d, role, d', role', f)
    ensures g != f ==> Kept(d, role, d', role', g)
  {
  }

  lemma WholeBack(d: Disk, role: Roles, f: Inum, r: FileRep, b: Inum)
    requires ChainOk(d, role, f, r) && Holds(r, b) && b in role
    ensures role[b].Inode? ==> role[b].file == f && role[b].j < |r.inodes| && r.inodes[role[b].j] == b
    ensures role[b].Data? ==> role[b].file == f && role[b].k < |r.blocks| && r.blocks[role[b].k] == b
    ensures role[b].Inode? || role[b].Data?
  {
    if b in r.inodes {
      var j :| 0 <= j < |r.inodes| && r.inodes[j] == b;
      assert InodeOk(d, role, f, r, j);
    } else {
      var k :| 0 <= k < |r.blocks| && r.blocks[k] == b;
      assert DataOk(d, role, f, r, k);
    }
  }

  /** What a write or a read of file `f` leaves behind. */
  ghost predicate Wrote(d: Disk, role: Roles, d': Disk, role': Roles, f: Inum, r: FileRep, c: seq<byte>) {
    && BitsOk(d', role') && Grew(d, role, d', role', f)
    && Contains(d', role', f, r, c) && Whole(role', f, r)
  }

  lemma WroteStore(d: Disk, role: Roles, x: Rep, d': Disk, role': Roles, f: Inum, r: FileRep, c: seq<byte>)
    requires StoreOk(d, role, x) && f in x.files && Wrote(d, role, d', role', f, r, c)
    ensures StoreOk(d', role', WithFile(x, f, r, c))
  {
    var x' := WithFile(x, f, r, c);
    InUse(d, role, x, f);
    forall g | g in x'.files || g in x'.content ensures FileHere(d', role', x', g) {
      if g != f {
        assert FileHere(d, role, x, g);
        GrewKeeps(d, role, d', role', f, g);
        FileFrame(d, role, g, x.files[g], x.content[g], d', role');
      }
    }
    forall a | a in x'.dirs ensures DirHere(d', role', x', a) {
      OtherDir(d, role, x, d', role', f, a);
    }
    forall b | b in role' ensures BackOk(role', x', b) {
      if Mine(role', b, f) {
        WholeBack(d', role', f, r, b);
      } else {
        assert BackOk(role, x, b);
      }
    }
  }

  lemma OtherDir(d: Disk, role: Roles, x: Rep, d': Disk, role': Roles, f: Inum, a: Inum)
    requires StoreOk(d, role, x) && f in x.files && Grew(d, role, d', role', f) && a in x.dirs
    ensures DirOk(d', role', a, x.dirs[a]) && All(d', x.dirs[a]) == All(d, x.dirs[a])
    ensures InumsDistinct(All(d', x.dirs[a]))
  {
    assert DirHere(d, role, x, a);
    InUse(d, role, x, f);
    InUse(d, role, x, a);
    GrewKeeps(d, role, d', role', f, a);
    DirFrame(d, role, a, x.dirs[a], d', role');
  }

  lemma WroteTree(d: Disk, role: Roles, x: Rep, d': Disk, role': Roles, f: Inum, r: FileRep, c: seq<byte>)
    requires FsOk(d, role, x) && f in x.files && Grew(d, role, d', role', f)
    ensures TreeOk(d', WithFile(x, f, r, c))
  {
    var x' := WithFile(x, f, r, c);
    forall e | e in x'.parent ensures ChildOk(x', e) {
      assert ChildOk(x, e);
    }
    forall a, e | a in x'.dirs ensures ListOk(d', x', a, e) {
      OtherDir(d, role, x, d', role', f, a);
      assert ListOk(d, x, a, e);
    }
  }

  /** Writing or reading a file keeps the file system sound. */
  lemma WroteKeeps(d: Disk, role: Roles, x: Rep, d': Disk, role': Roles, f: Inum, r: FileRep, c: seq<byte>)
    requires FsOk(d, role, x) && f in x.files && Wrote(d, role, d', role', f, r, c)
    ensures FsOk(d', role', WithFile(x, f, r, c))
  {
    WroteStore(d, role, x, d', role', f, r, c);
    WroteTree(d, role, x, d', role', f, r, c);
  }
}
