/** The blocks of the file system as one client sees them, the block locks it
    holds, and the bitmap allocator: `get`, `put` and `remove`. */
module Volume {
  import opened Blocks
  import opened Bits

  type Inum = nat

  const BITMAP_BEGIN := 10
  const BITMAP_END := 200
  /** Blocks the bitmap blocks can describe. */
  const CAPACITY := (BITMAP_END - BITMAP_BEGIN + 1) * BITS
  const ROOT := 1

  const DIRECT := 16
  const ENTRIES := 5
  const NAME_LEN := 64

  datatype Entry = Entry(name: string, inum: Inum)

  datatype FileInode = FileInode(mode: nat, size: nat, atime: nat, mtime: nat, ctime: nat,
                                 slots: seq<Inum>, next: Inum)

  /** A directory's size is the number of its entries in use. */
  datatype DirInode = DirInode(mode: nat, atime: nat, mtime: nat, ctime: nat, entries: seq<Entry>, next: Inum)

  /** A block by what was last stored in it. */
  datatype Node = Raw(bytes: Block) | FileNode(file: FileInode) | DirNode(dir: DirInode)

  const BLANK := Raw(ZERO)
  const NO_SLOTS: seq<Inum> := [0, 0, 0, 0, 0, 0, 0, 0, 0, 0, 0, 0, 0, 0, 0, 0]
  const BLANK_FILE := FileInode(0, 0, 0, 0, 0, NO_SLOTS, 0)
  const BLANK_DIR := DirInode(0, 0, 0, 0, [], 0)

  /** A block read as a file inode or as a directory inode: it is one, or it is all
      zeros. */
  function AsFile(n: Node): FileInode
    requires n.FileNode? || n == BLANK
  {
    if n.FileNode? then n.file else BLANK_FILE
  }

  function AsDir(n: Node): DirInode
    requires n.DirNode? || n == BLANK
  {
    if n.DirNode? then n.dir else BLANK_DIR
  }

  /** What isfile and isdir look at. A block of zeros has mode 0. */
  function ModeOf(n: Node): nat {
    match n
    case FileNode(file) => file.mode
    case DirNode(dir) => dir.mode
    case Raw(_) => 0
  }

  type Disk = map<Inum, Node>

  /** The disk file is sparse. */
  function At(d: Disk, i: Inum): Node {
    if i in d then d[i] else BLANK
  }

  predicate IsBitmap(i: Inum) {
    BITMAP_BEGIN <= i <= BITMAP_END
  }

  function BitmapBlock(i: Inum): Inum {
    BITMAP_BEGIN + i / BITS
  }

  function BitmapBytes(d: Disk, b: Inum): Block {
    if At(d, b).Raw? then At(d, b).bytes else ZERO
  }

  predicate Used(d: Disk, i: Inum) {
    BitAt(BitmapBytes(d, BitmapBlock(i)), i % BITS)
  }

  /** What an allocated block is for. */
  datatype Role =
    | Reserved
    | Inode(file: Inum, j: nat)
    | Data(file: Inum, k: nat)
    | Dir(dir: Inum, j: nat)

  type Roles = map<Inum, Role>

  /** What a block is allocated for: the first block of a new file or directory, or
      a given place in an old one. */
  datatype Purpose = NewFile | NewDir | For(role: Role)

  function RoleOf(p: Purpose, ino: Inum): Role {
    match p
    case NewFile => Inode(ino, 0)
    case NewDir => Dir(ino, 0)
    case For(role) => role
  }

  predicate IsReserved(i: Inum) {
    i == 0 || IsBitmap(i)
  }

  /** The bitmap says exactly which blocks are in use; block 0 and the bitmap
      blocks always are. */
  ghost predicate BitsOk(d: Disk, role: Roles) {
    && (forall i: Inum {:trigger Used(d, i)} | i < CAPACITY :: Used(d, i) <==> i in role)
    && (forall i :: i in role ==> i < CAPACITY)
    && (forall i :: i in role && role[i].Reserved? <==> IsReserved(i))
  }

  lemma OtherBlock(d: Disk, role: Roles, b: Inum, n: Node)
    requires BitsOk(d, role) && !IsBitmap(b)
    ensures BitsOk(d[b := n], role)
  {
    forall i | 0 <= i < CAPACITY ensures Used(d[b := n], i) <==> i in role {
      assert Used(d, i) <==> i in role;
      assert BitmapBlock(i) != b;
    }
  }

  function WithBit(d: Disk, i: Inum): Disk {
    d[BitmapBlock(i) := Raw(SetAt(BitmapBytes(d, BitmapBlock(i)), i % BITS))]
  }

  function WithoutBit(d: Disk, i: Inum): Disk {
    d[BitmapBlock(i) := Raw(ClearAt(BitmapBytes(d, BitmapBlock(i)), i % BITS))]
  }

  lemma SetBitOk(d: Disk, role: Roles, i: Inum, r: Role)
    requires BitsOk(d, role) && i < CAPACITY && i !in role && !r.Reserved?
    ensures BitsOk(WithBit(d, i), role[i := r])
  {
    var d' := WithBit(d, i);
    forall k | 0 <= k < CAPACITY ensures Used(d', k) <==> k in role[i := r] {
      assert Used(d, k) <==> k in role;
      if BitmapBlock(k) == BitmapBlock(i) {
        AfterSet(BitmapBytes(d, BitmapBlock(i)), i % BITS, k % BITS);
      }
    }
  }

  lemma ClearBitOk(d: Disk, role: Roles, i: Inum)
    requires BitsOk(d, role) && i < CAPACITY && !IsReserved(i)
    ensures BitsOk(WithoutBit(d, i), role - {i})
  {
    var d' := WithoutBit(d, i);
    forall k | 0 <= k < CAPACITY ensures Used(d', k) <==> k in role - {i} {
      assert Used(d, k) <==> k in role;
      if BitmapBlock(k) == BitmapBlock(i) {
        AfterClear(BitmapBytes(d, BitmapBlock(i)), i % BITS, k % BITS);
      }
    }
  }

  lemma BitmapOf(i: Inum)
    requires i < CAPACITY
    ensures IsBitmap(BitmapBlock(i))
  {
  }

  /** What storing a node in a new block leaves alone. */
  lemma NewBlockFrame(d: Disk, i: Inum, n: Node)
    requires i < CAPACITY && !IsBitmap(i)
    ensures forall b :: !IsBitmap(b) ==> At(WithBit(d[i := n], i), b) == if b == i then n else At(d, b)
  {
    BitmapOf(i);
  }

  ghost predicate SomeFree(role: Roles) {
    exists i :: 0 <= i < CAPACITY && i !in role
  }

  /** The locks an operation holds while it works on `own`: never a bitmap block,
      and never a free block. */
  ghost predicate LocksOk(held: set<Inum>, role: Roles) {
    forall i :: i in held ==> i in role && !IsBitmap(i)
  }

  /** The bitmap blocks up to `last`. */
  function Bitmaps(last: int): (s: set<Inum>)
    ensures forall b :: b in s <==> BITMAP_BEGIN <= b <= last
    decreases last
  {
    if last < BITMAP_BEGIN then {} else Bitmaps(last - 1) + {last}
  }

  /** The extent and lock clients of one yfs_client. `role` and `stray` are for the
      proofs: what each allocated block is for, and which extents were touched
      without holding their lock. */
  class Vol {
    var disk: Disk
    var held: set<Inum>
    ghost var role: Roles
    ghost var stray: set<Inum>

    ghost predicate Valid()
      reads this
    {
      BitsOk(disk, role)
    }

    /** Acquiring a lock twice would wait for itself. */
    method Acquire(i: Inum)
      requires i !in held
      modifies `held
      ensures held == old(held) + {i}
    {
      held := held + {i};
    }

    method Release(i: Inum)
      requires i in held
      modifies `held
      ensures held == old(held) - {i}
    {
      held := held - {i};
    }

    ghost function Touched(i: Inum): set<Inum>
      reads this
    {
      if i in held then stray else stray + {i}
    }

    method EcGet(i: Inum) returns (n: Node)
      modifies `stray
      ensures n == At(disk, i) && stray == old(Touched(i))
    {
      n := At(disk, i);
      stray := Touched(i);
    }

    method EcPut(i: Inum, n: Node)
      modifies `disk, `stray
      ensures disk == old(disk)[i := n] && stray == old(Touched(i))
    {
      disk := disk[i := n];
      stray := Touched(i);
    }

    /** The bit of a block, read under the lock of its bitmap block. */
    method ReadBit(i: Inum) returns (used: bool)
      requires i < CAPACITY && BitmapBlock(i) !in held
      modifies `held, `stray
      ensures used == Used(disk, i)
      ensures held == old(held) && stray == old(stray)
    {
      Acquire(BitmapBlock(i));
      var n := EcGet(BitmapBlock(i));
      Release(BitmapBlock(i));
      used := BitAt(if n.Raw? then n.bytes else ZERO, i % BITS);
    }

    /** Succeeds exactly on blocks in use; a bitmap block is not looked up. */
    method Get(ino: Inum) returns (ok: bool, n: Node)
      requires Valid() && ino < CAPACITY && BitmapBlock(ino) !in held
      modifies `held, `stray
      ensures ok <==> ino in role
      ensures ok ==> n == At(disk, ino)
      ensures held == old(held) && stray == if ok then old(Touched(ino)) else old(stray)
    {
      ok, n := true, BLANK;
      if !IsBitmap(ino) {
        ok := ReadBit(ino);
      }
      if ok {
        n := EcGet(ino);
      }
    }

    method PutOld(ino: Inum, n: Node) returns (ok: bool)
      requires Valid() && ino < CAPACITY && !IsBitmap(ino) && BitmapBlock(ino) !in held
      modifies `disk, `held, `stray
      ensures Valid()
      ensures ok <==> ino in role
      ensures disk == if ok then old(disk)[ino := n] else old(disk)
      ensures held == old(held) && stray == if ok then old(Touched(ino)) else old(stray)
    {
      ok := ReadBit(ino);
      if ok {
        OtherBlock(disk, role, ino, n);
        EcPut(ino, n);
      }
    }

    method BitUnderLock(i: Inum) returns (used: bool)
      requires i < CAPACITY && BitmapBlock(i) in held
      modifies `stray
      ensures used == Used(disk, i) && stray == old(stray)
    {
      var n := EcGet(BitmapBlock(i));
      used := BitAt(if n.Raw? then n.bytes else ZERO, i % BITS);
    }

    /** The search loop: takes the lock of each bitmap block as it comes to it and
        keeps them all. */
    method FindFree() returns (i: Inum, last: int)
      requires Valid() && SomeFree(role) && LocksOk(held, role)
      modifies `held, `stray
      ensures i < CAPACITY && i !in role && forall k :: 0 <= k < i ==> k in role
      ensures last == BitmapBlock(i) && held == old(held) + Bitmaps(last)
      ensures stray == old(stray)
    {
      ghost var free :| 0 <= free < CAPACITY && free !in role;
      i, last := 0, BITMAP_BEGIN - 1;
      var used := true;
      while used
        invariant i <= free && (!used ==> i !in role && last == BitmapBlock(i))
        invariant forall k :: 0 <= k < i ==> k in role
        invariant used ==> last == if i == 0 then BITMAP_BEGIN - 1 else BitmapBlock(i - 1)
        invariant held == old(held) + Bitmaps(last)
        invariant stray == old(stray)
        decreases used, free - i
      {
        if BitmapBlock(i) != last {
          Acquire(BitmapBlock(i));
          last := BitmapBlock(i);
        }
        used := BitUnderLock(i);
        if used {
          i := i + 1;
        }
      }
    }

    method ReleaseBitmaps(from: int, ghost before: set<Inum>)
      requires held == before + Bitmaps(from) && before !! Bitmaps(from)
      modifies `held
      ensures held == before
    {
      var last := from;
      while last >= BITMAP_BEGIN
        invariant held == before + Bitmaps(last) && before !! Bitmaps(last)
      {
        Release(last);
        last := last - 1;
      }
    }

    /** Stores the node in a free block and sets its bit. */
    method Claim(ino: Inum, n: Node, ghost r: Role)
      requires Valid() && ino < CAPACITY && ino !in role && !r.Reserved?
      requires ino !in held && BitmapBlock(ino) in held
      modifies this
      ensures Valid()
      ensures role == old(role)[ino := r]
      ensures disk == WithBit(old(disk)[ino := n], ino)
      ensures held == old(held) && stray == old(stray)
    {
      OtherBlock(disk, role, ino, n);
      SetBitOk(disk[ino := n], role, ino, r);
      Acquire(ino);
      EcPut(ino, n);
      Release(ino);
      var b := EcGet(BitmapBlock(ino));
      EcPut(BitmapBlock(ino), Raw(SetAt(if b.Raw? then b.bytes else ZERO, ino % BITS)));
      role := role[ino := r];
    }

    /** `put` with add: the least free block gets the node and its bit. */
    method PutNew(n: Node, ghost p: Purpose) returns (ino: Inum)
      requires Valid() && SomeFree(role) && LocksOk(held, role) && !(p.For? && p.role.Reserved?)
      modifies this
      ensures Valid()
      ensures ino < CAPACITY && ino !in old(role) && forall k :: 0 <= k < ino ==> k in old(role)
      ensures role == old(role)[ino := RoleOf(p, ino)]
      ensures forall b :: !IsBitmap(b) ==> At(disk, b) == if b == ino then n else old(At(disk, b))
      ensures held == old(held) && stray == old(stray)
    {
      var last;
      ino, last := FindFree();
      Claim(ino, n, RoleOf(p, ino));
      ReleaseBitmaps(last, old(held));
      NewBlockFrame(old(disk), ino, n);
    }

    /** Clears the bit of one block and nothing else. */
    method Remove(ino: Inum)
      requires Valid() && ino < CAPACITY && !IsReserved(ino) && BitmapBlock(ino) !in held
      modifies this
      ensures Valid()
      ensures role == old(role) - {ino}
      ensures forall b :: !IsBitmap(b) ==> At(disk, b) == old(At(disk, b))
      ensures held == old(held) && stray == old(stray)
    {
      ClearBitOk(disk, role, ino);
      Acquire(BitmapBlock(ino));
      var b := EcGet(BitmapBlock(ino));
      EcPut(BitmapBlock(ino), Raw(ClearAt(if b.Raw? then b.bytes else ZERO, ino % BITS)));
      role := role - {ino};
      Release(BitmapBlock(ino));
    }

    method SafeGet(ino: Inum, ignore: Inum) returns (ok: bool, n: Node)
      requires Valid() && ino < CAPACITY && BitmapBlock(ino) !in held
      requires !IsBitmap(ino) && (ino != ignore ==> ino !in held)
      modifies `held, `stray
      ensures ok <==> ino in role
      ensures ok ==> n == At(disk, ino)
      ensures held == old(held)
      ensures stray == if ok && ino == ignore then old(Touched(ino)) else old(stray)
    {
      if ino == ignore {
        ok, n := Get(ino);
        return;
      }
      Acquire(ino);
      ok, n := Get(ino);
      Release(ino);
    }

    method SafePut(ino: Inum, n: Node, ignore: Inum) returns (ok: bool)
      requires Valid() && ino < CAPACITY && BitmapBlock(ino) !in held
      requires !IsBitmap(ino) && (ino != ignore ==> ino !in held)
      modifies `disk, `held, `stray
      ensures Valid()
      ensures ok <==> ino in role
      ensures disk == if ok then old(disk)[ino := n] else old(disk)
      ensures held == old(held)
      ensures stray == if ok && ino == ignore then old(Touched(ino)) else old(stray)
    {
      if ino == ignore {
        ok := PutOld(ino, n);
        return;
      }
      Acquire(ino);
      ok := PutOld(ino, n);
      Release(ino);
    }
  }
}
