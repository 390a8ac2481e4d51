/** The steps of `inner_write` on the chain. */
module FileSteps {
  import opened Blocks
  import opened Volume
  import opened FileChain

  /** The volume is sound, `r` is the whole file at `ino`, and no lock is held that
      these steps take: only the first inode may be locked by the caller. */
  ghost predicate Ready(v: Vol, ino: Inum, r: FileRep)
    reads v
  {
    && v.Valid() && ChainOk(v.disk, v.role, ino, r) && LocksOk(v.held, v.role) && Whole(v.role, ino, r)
    && forall b :: Holds(r, b) && b != ino ==> b !in v.held
  }

  /** No block of the file is missing from `r`. */
  ghost predicate Whole(role: Roles, ino: Inum, r: FileRep) {
    forall b :: b in role && Mine(role, b, ino) ==> Holds(r, b)
  }

  ghost predicate Mine(role: Roles, b: Inum, ino: Inum)
    requires b in role
  {
    (role[b].Inode? || role[b].Data?) && role[b].file == ino
  }

  /** Only blocks of file `ino` are added, and of the old blocks only those of the
      file and the bitmap change. */
  ghost predicate Grew(d: Disk, role: Roles, d': Disk, role': Roles, ino: Inum) {
    && RolesGrow(role, role')
    && (forall b :: b in role' && b !in role ==> Mine(role', b, ino))
    && (forall b :: b in role && !Mine(role, b, ino) && !IsBitmap(b) ==> At(d', b) == At(d, b))
  }

  /** At most the first inode was touched without its lock, and only if the caller
      did not hold it. */
  ghost predicate StrayOk(before: set<Inum>, after: set<Inum>, held: set<Inum>, ino: Inum) {
    after == before || (ino !in held && after == before + {ino})
  }

  /** Old bytes are kept and new blocks are zero. */
  ghost predicate SameBytes(d: Disk, d': Disk, r: FileRep, r': FileRep) {
    && |r.blocks| <= |r'.blocks|
    && (forall p :: 0 <= p < BSIZE * |r.blocks| ==> ByteAt(d', r', p) == ByteAt(d, r, p))
    && (forall p :: BSIZE * |r.blocks| <= p < BSIZE * |r'.blocks| ==> ByteAt(d', r', p) == 0)
  }

  /** Room for n more blocks. */
  ghost predicate Room(role: Roles, n: nat) {
    |role| + n <= CAPACITY
  }

  lemma RangeSize(n: nat, s: set<Inum>)
    requires forall i :: 0 <= i < n ==> i in s
    ensures |s| >= n
  {
    if n > 0 {
      RangeSize(n - 1, s - {n - 1});
    }
  }

  lemma RoomIsFree(d: Disk, role: Roles)
    requires BitsOk(d, role) && Room(role, 1)
    ensures SomeFree(role)
  {
    assert |role.Keys| == |role|;
    if !SomeFree(role) {
      RangeSize(CAPACITY, role.Keys);
    }
  }

  /** Blocks to allocate before block k of the file exists. */
  function Needed(r: FileRep, k: nat): nat {
    if k < |r.blocks| then 0
    else (k + 1 - |r.blocks|) + (if k / DIRECT + 1 > |r.inodes| then k / DIRECT + 1 - |r.inodes| else 0)
  }

  /** Appends an empty inode to the chain. */
  method AppendInode(v: Vol, ino: Inum, target: Inum, node: FileInode, ghost r: FileRep) returns (tmp: Inum)
    requires Ready(v, ino, r) && Room(v.role, 1)
    requires |r.blocks| == DIRECT * |r.inodes| && target == Last(r) && At(v.disk, target) == FileNode(node)
    modifies v
    ensures tmp !in old(v.role) && v.role == old(v.role)[tmp := Inode(ino, |r.inodes|)]
    ensures Ready(v, ino, WithInode(r, tmp))
    ensures At(v.disk, target) == FileNode(node.(next := tmp))
    ensures At(v.disk, tmp) == FileNode(FileInode(1, 0, 0, 0, 0, NO_SLOTS, 0))
    ensures Grew(old(v.disk), old(v.role), v.disk, v.role, ino)
    ensures forall b :: Holds(r, b) && b != target ==> At(v.disk, b) == old(At(v.disk, b))
    ensures v.held == old(v.held) && StrayOk(old(v.stray), v.stray, v.held, ino)
  {
    assert InodeOk(v.disk, v.role, ino, r, |r.inodes| - 1) && Holds(r, target);
    Members(v.disk, v.role, ino, r);
    RoomIsFree(v.disk, v.role);
    tmp := v.PutNew(NEW_INODE, For(Inode(ino, |r.inodes|)));
    BitmapOf(target);
    var ok := v.SafePut(target, FileNode(node.(next := tmp)), ino);
    InodeAdded(old(v.disk), old(v.role), ino, r, tmp, v.disk, v.role);
  }

  /** Appends a zero block in the first free slot of the last inode. */
  method AppendBlock(v: Vol, ino: Inum, target: Inum, node: FileInode, index: nat, ghost r: FileRep)
    returns (node': FileInode, tmp: Inum)
    requires Ready(v, ino, r) && Room(v.role, 1)
    requires |r.blocks| < DIRECT * |r.inodes| && index == |r.blocks| % DIRECT
    requires target == Last(r) && At(v.disk, target) == FileNode(node)
    modifies v
    ensures tmp !in old(v.role) && v.role == old(v.role)[tmp := Data(ino, |r.blocks|)]
    ensures Ready(v, ino, WithBlock(r, tmp))
    ensures At(v.disk, tmp) == BLANK
    ensures node' == node.(slots := node'.slots) && At(v.disk, target) == FileNode(node')
    ensures Grew(old(v.disk), old(v.role), v.disk, v.role, ino)
    ensures forall b :: Holds(r, b) && b != target ==> At(v.disk, b) == old(At(v.disk, b))
    ensures v.held == old(v.held) && StrayOk(old(v.stray), v.stray, v.held, ino)
  {
    assert InodeOk(v.disk, v.role, ino, r, |r.inodes| - 1) && Holds(r, target);
    Members(v.disk, v.role, ino, r);
    RoomIsFree(v.disk, v.role);
    tmp := v.PutNew(BLANK, For(Data(ino, |r.blocks|)));
    BitmapOf(target);
    node' := node.(slots := node.slots[index := tmp]);
    var ok := v.SafePut(target, FileNode(node'), ino);
    BlockAdded(old(v.disk), old(v.role), ino, r, tmp, v.disk, v.role);
  }

  /** An inode changed, at most a zero block was added: the bytes are the same. */
  lemma BytesKept(d: Disk, role: Roles, f: Inum, r: FileRep, target: Inum, d': Disk, r': FileRep)
    requires ChainOk(d, role, f, r) && target in r.inodes
    requires forall b :: Holds(r, b) && b != target ==> At(d', b) == At(d, b)
    requires r'.blocks == r.blocks
             || (|r'.blocks| > 0 && r'.blocks == r.blocks + [r'.blocks[|r'.blocks| - 1]]
                 && At(d', r'.blocks[|r'.blocks| - 1]) == BLANK)
    ensures SameBytes(d, d', r, r')
  {
    var j :| 0 <= j < |r.inodes| && r.inodes[j] == target;
    assert InodeOk(d, role, f, r, j);
    forall k | 0 <= k < |r.blocks| ensures At(d', r'.blocks[k]) == At(d, r.blocks[k]) {
      assert DataOk(d, role, f, r, k) && Holds(r, r.blocks[k]);
    }
  }

  /** The first inode of a file but for its pointers. */
  function HeaderOf(d: Disk, f: Inum): FileInode {
    if At(d, f).FileNode? then At(d, f).file.(slots := [], next := 0) else BLANK_FILE
  }

  function SizeOf(d: Disk, f: Inum): nat {
    HeaderOf(d, f).size
  }

  /** The inode a loop of the source has in its buffer. */
  ghost predicate Cursor(d: Disk, r: FileRep, j: nat, target: Inum, node: FileInode) {
    j < |r.inodes| && target == r.inodes[j] && At(d, target) == FileNode(node)
  }

  datatype Snap = Snap(disk: Disk, role: Roles, held: set<Inum>, stray: set<Inum>)

  ghost function Now(v: Vol): Snap
    reads v
  {
    Snap(v.disk, v.role, v.held, v.stray)
  }

  /** What the growth of a file leaves: it is still the same bytes. */
  ghost predicate Stepped(s: Snap, s': Snap, ino: Inum, r: FileRep, r': FileRep) {
    && Grew(s.disk, s.role, s'.disk, s'.role, ino)
    && SameBytes(s.disk, s'.disk, r, r')
    && HeaderOf(s'.disk, ino) == HeaderOf(s.disk, ino)
    && s'.held == s.held && StrayOk(s.stray, s'.stray, s.held, ino)
  }

  lemma GrewTwice(d: Disk, role: Roles, d': Disk, role': Roles, d'': Disk, role'': Roles, ino: Inum)
    requires Grew(d, role, d', role', ino) && Grew(d', role', d'', role'', ino)
    ensures Grew(d, role, d'', role'', ino)
  {
  }

  lemma SteppedTwice(s: Snap, s': Snap, s'': Snap, ino: Inum, r: FileRep, r': FileRep, r'': FileRep)
    requires Stepped(s, s', ino, r, r') && Stepped(s', s'', ino, r', r'')
    ensures Stepped(s, s'', ino, r, r'')
  {
    GrewTwice(s.disk, s.role, s'.disk, s'.role, s''.disk, s''.role, ino);
  }

  /** "Touch the data block", first part: past the last slot, go to the next inode,
      making one if there is none. */
  method TouchInode(v: Vol, ino: Inum, target: Inum, node: FileInode, ghost r: FileRep, ghost j: nat, ghost last: nat)
    returns (target': Inum, node': FileInode, ghost r': FileRep)
    requires Ready(v, ino, r) && Cursor(v.disk, r, j, target, node)
    requires DIRECT * (j + 1) <= |r.blocks| && DIRECT * (j + 1) <= last && Room(v.role, Needed(r, last))
    modifies v
    ensures Ready(v, ino, r') && Stepped(old(Now(v)), Now(v), ino, r, r') && r'.blocks == r.blocks
    ensures Cursor(v.disk, r', j + 1, target', node')
    ensures Room(v.role, Needed(r', last))
  {
    r' := r;
    var next := node.next;
    assert InodeOk(v.disk, v.role, ino, r, j);
    Members(v.disk, v.role, ino, r);
    if next == 0 {
      if j + 1 < |r.inodes| {
        assert Holds(r, r.inodes[j + 1]);
      }
      next := AppendInode(v, ino, target, node, r);
      r' := WithInode(r, next);
      BytesKept(old(v.disk), old(v.role), ino, r, target, v.disk, r');
    }
    Members(v.disk, v.role, ino, r');
    target' := next;
    assert InodeOk(v.disk, v.role, ino, r', j + 1) && Holds(r', target');
    BitmapOf(target');
    assert target' != ino by { assert InodeOk(v.disk, v.role, ino, r', 0); }
    var ok, n := v.SafeGet(target', ino);
    node' := AsFile(n);
  }

  /** Second part: an empty slot gets a zero block. */
  method TouchBlock(v: Vol, ino: Inum, target: Inum, node: FileInode, index: nat, ghost r: FileRep, ghost j: nat, ghost last: nat)
    returns (node': FileInode, ghost r': FileRep)
    requires Ready(v, ino, r) && Cursor(v.disk, r, j, target, node) && index < DIRECT
    requires DIRECT * j + index <= |r.blocks| && DIRECT * j + index <= last && Room(v.role, Needed(r, last))
    modifies v
    ensures Ready(v, ino, r') && Stepped(old(Now(v)), Now(v), ino, r, r')
    ensures Cursor(v.disk, r', j, target, node')
    ensures DIRECT * j + index < |r'.blocks| <= Max(|r.blocks|, last + 1) && |node'.slots| == DIRECT
    ensures node'.slots[index] == r'.blocks[DIRECT * j + index]
    ensures Room(v.role, Needed(r', last))
  {
    r', node' := r, node;
    assert InodeOk(v.disk, v.role, ino, r, j);
    Members(v.disk, v.role, ino, r);
    if DIRECT * j + index < |r.blocks| {
      assert Holds(r, r.blocks[DIRECT * j + index]);
    }
    if node.slots[index] == 0 {
      ghost var k := |r.blocks|;
      var tmp;
      node', tmp := AppendBlock(v, ino, target, node, index, r);
      r' := WithBlock(r, tmp);
      BytesKept(old(v.disk), old(v.role), ino, r, target, v.disk, r');
      assert InodeOk(v.disk, v.role, ino, r', j);
    }
  }

  /** Third part: a block that starts past the end of the file is written as zeros,
      which it already is. */
  method ZeroAgain(v: Vol, ino: Inum, b: Inum, ghost r: FileRep, ghost k: nat)
    requires Ready(v, ino, r) && k < |r.blocks| && b == r.blocks[k]
    requires forall p :: BSIZE * k <= p < BSIZE * (k + 1) ==> ByteAt(v.disk, r, p) == 0
    modifies v
    ensures Ready(v, ino, r) && Stepped(old(Now(v)), Now(v), ino, r, r) && v.role == old(v.role)
    ensures forall x :: x != b ==> At(v.disk, x) == old(At(v.disk, x))
  {
    assert DataOk(v.disk, v.role, ino, r, k) && Holds(r, b);
    assert InodeOk(v.disk, v.role, ino, r, 0);
    Members(v.disk, v.role, ino, r);
    BitmapOf(b);
    BlockWritten(v.disk, v.role, ino, r, k, ZERO);
    var ok := v.SafePut(b, BLANK, ino);
  }

  /** The block under the cursor exists and is known. */
  ghost predicate OnBlock(d: Disk, r: FileRep, j: nat, target: Inum, node: FileInode, index: nat) {
    && Cursor(d, r, j, target, node) && index < DIRECT && |node.slots| == DIRECT
    && DIRECT * j + index < |r.blocks| && node.slots[index] == r.blocks[DIRECT * j + index]
  }

  /** Bytes of block k, as far as it exists, are zero. */
  ghost predicate ZeroBlock(d: Disk, r: FileRep, k: nat) {
    forall p :: BSIZE * k <= p < BSIZE * (k + 1) && p < BSIZE * |r.blocks| ==> ByteAt(d, r, p) == 0
  }

  method TouchBoth(v: Vol, ino: Inum, target: Inum, node: FileInode, index: nat,
                   ghost r: FileRep, ghost j: nat, ghost last: nat)
    returns (target': Inum, node': FileInode, index': nat, ghost r': FileRep, ghost j': nat)
    requires Ready(v, ino, r) && Cursor(v.disk, r, j, target, node) && index <= DIRECT
    requires DIRECT * j + index <= |r.blocks| && DIRECT * j + index <= last && Room(v.role, Needed(r, last))
    modifies v
    ensures Ready(v, ino, r') && Stepped(old(Now(v)), Now(v), ino, r, r')
    ensures OnBlock(v.disk, r', j', target', node', index') && DIRECT * j' + index' == DIRECT * j + index
    ensures |r'.blocks| <= Max(|r.blocks|, last + 1) && Room(v.role, Needed(r', last))
  {
    target', node', index', r', j' := target, node, index, r, j;
    if index >= DIRECT {
      target', node', r' := TouchInode(v, ino, target, node, r, j, last);
      index', j' := 0, j + 1;
    } else {
      assert Stepped(Now(v), Now(v), ino, r, r);
    }
    ghost var mid, rm := Now(v), r';
    node', r' := TouchBlock(v, ino, target', node', index', r', j', last);
    SteppedTwice(old(Now(v)), mid, Now(v), ino, r, rm, r');
  }

  lemma ZeroStays(d: Disk, d': Disk, r: FileRep, r': FileRep, k: nat)
    requires SameBytes(d, d', r, r') && ZeroBlock(d, r, k)
    ensures ZeroBlock(d', r', k)
  {
  }

  method ZeroUnder(v: Vol, ino: Inum, target: Inum, node: FileInode, index: nat, ghost r: FileRep, ghost j: nat)
    requires Ready(v, ino, r) && OnBlock(v.disk, r, j, target, node, index)
    requires ZeroBlock(v.disk, r, DIRECT * j + index)
    modifies v
    ensures Ready(v, ino, r) && Stepped(old(Now(v)), Now(v), ino, r, r) && v.role == old(v.role)
    ensures OnBlock(v.disk, r, j, target, node, index)
  {
    assert DataOk(v.disk, v.role, ino, r, DIRECT * j + index) && InodeOk(v.disk, v.role, ino, r, j);
    ZeroAgain(v, ino, node.slots[index], r, DIRECT * j + index);
  }

  method Touch(v: Vol, ino: Inum, target: Inum, node: FileInode, index: nat, filesize: int,
               ghost r: FileRep, ghost j: nat, ghost last: nat)
    returns (target': Inum, node': FileInode, index': nat, ghost r': FileRep, ghost j': nat)
    requires Ready(v, ino, r) && Cursor(v.disk, r, j, target, node) && index <= DIRECT
    requires DIRECT * j + index <= |r.blocks| && DIRECT * j + index <= last && Room(v.role, Needed(r, last))
    requires filesize < 0 ==> ZeroBlock(v.disk, r, DIRECT * j + index)
    modifies v
    ensures Ready(v, ino, r') && Stepped(old(Now(v)), Now(v), ino, r, r')
    ensures OnBlock(v.disk, r', j', target', node', index') && DIRECT * j' + index' == DIRECT * j + index
    ensures |r'.blocks| <= Max(|r.blocks|, last + 1) && Room(v.role, Needed(r', last))
  {
    target', node', index', r', j' := TouchBoth(v, ino, target, node, index, r, j, last);
    if filesize < 0 {
      ghost var mid := Now(v);
      ZeroStays(old(v.disk), v.disk, r, r', DIRECT * j + index);
      ZeroUnder(v, ino, target', node', index', r', j');
      SteppedTwice(old(Now(v)), mid, Now(v), ino, r, r', r');
    }
  }
}
