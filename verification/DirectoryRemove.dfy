/** unlink and recursive_unlink. */
module DirRemove {
  import opened Volume
  import opened DirChain
  import opened DirOps
  import opened DirInsert
  import opened FileChain

  function SetOf(s: seq<Inum>): set<Inum> {
    set b | b in s
  }

  /** The blocks of a file. */
  function BlocksOf(r: FileRep): set<Inum> {
    SetOf(r.inodes) + SetOf(r.blocks)
  }

  function Upto(s: seq<Inum>, n: nat): seq<Inum> {
    if n < |s| then s[..n] else s
  }

  /** Frees the blocks in the slots up to the first empty slot. */
  method FreeSlots(v: Vol, slots: seq<Inum>) returns (ghost n: nat)
    requires v.Valid() && |slots| == DIRECT && (forall b :: b in v.held ==> !IsBitmap(b))
    requires forall i :: 0 <= i < DIRECT && slots[i] != 0 ==> slots[i] < CAPACITY && !IsBitmap(slots[i])
    modifies v
    ensures v.Valid() && v.held == old(v.held) && v.stray == old(v.stray)
    ensures n <= DIRECT && (n < DIRECT ==> slots[n] == 0) && (forall i :: 0 <= i < n ==> slots[i] != 0)
    ensures v.role == old(v.role) - SetOf(slots[..n])
    ensures forall b :: !IsBitmap(b) ==> At(v.disk, b) == old(At(v.disk, b))
  {
    var i: nat := 0;
    while i < DIRECT && slots[i] != 0
      invariant i <= DIRECT && v.Valid() && v.held == old(v.held) && v.stray == old(v.stray)
      invariant forall k :: 0 <= k < i ==> slots[k] != 0
      invariant v.role == old(v.role) - SetOf(slots[..i])
      invariant forall b :: !IsBitmap(b) ==> At(v.disk, b) == old(At(v.disk, b))
    {
      BitmapOf(slots[i]);
      assert SetOf(slots[..i + 1]) == SetOf(slots[..i]) + {slots[i]};
      v.Remove(slots[i]);
      i := i + 1;
    }
    n := i;
  }

  /** The slots of inode j, up to the first empty one, are its data blocks. */
  lemma SlotBlocks(d: Disk, role: Roles, f: Inum, r: FileRep, j: nat, slots: seq<Inum>, n: nat)
    requires ChainOk(d, role, f, r) && BitsOk(d, role) && j < |r.inodes| && |slots| == DIRECT
    requires At(d, r.inodes[j]).FileNode? && slots == At(d, r.inodes[j]).file.slots
    requires n <= DIRECT && (n < DIRECT ==> slots[n] == 0) && forall i :: 0 <= i < n ==> slots[i] != 0
    ensures SetOf(Upto(r.blocks, DIRECT * (j + 1))) == SetOf(Upto(r.blocks, DIRECT * j)) + SetOf(slots[..n])
  {
    assert InodeOk(d, role, f, r, j);
    forall i | 0 <= i < DIRECT
      ensures slots[i] != 0 <==> DIRECT * j + i < |r.blocks|
      ensures slots[i] != 0 ==> slots[i] == r.blocks[DIRECT * j + i]
    {
      InRange(d, role, f, r, DIRECT * j + i);
    }
    assert n == DIRECT ==> slots[DIRECT - 1] != 0;
    assert n > 0 ==> slots[n - 1] != 0;
    assert Upto(r.blocks, DIRECT * (j + 1)) == Upto(r.blocks, DIRECT * j) + slots[..n];
  }

  lemma InRange(d: Disk, role: Roles, f: Inum, r: FileRep, k: nat)
    requires ChainOk(d, role, f, r) && BitsOk(d, role)
    ensures SlotOf(r, k) != 0 <==> k < |r.blocks|
    ensures SlotOf(r, k) != 0 ==> SlotOf(r, k) < CAPACITY && !IsReserved(SlotOf(r, k))
  {
    Members(d, role, f, r);
    if k < |r.blocks| {
      assert Holds(r, r.blocks[k]);
    }
  }

  lemma SlotsInRange(d: Disk, role: Roles, f: Inum, r: FileRep, j: nat)
    requires ChainOk(d, role, f, r) && BitsOk(d, role) && j < |r.inodes|
    ensures At(d, r.inodes[j]).FileNode? && |At(d, r.inodes[j]).file.slots| == DIRECT
    ensures forall i :: 0 <= i < DIRECT && At(d, r.inodes[j]).file.slots[i] != 0 ==>
              At(d, r.inodes[j]).file.slots[i] < CAPACITY && !IsBitmap(At(d, r.inodes[j]).file.slots[i])
  {
    assert InodeOk(d, role, f, r, j);
    var slots := At(d, r.inodes[j]).file.slots;
    forall i | 0 <= i < DIRECT ensures slots[i] != 0 ==> slots[i] < CAPACITY && !IsBitmap(slots[i]) {
      InRange(d, role, f, r, DIRECT * j + i);
    }
  }

  /** The file at `f` as it was before unlink began to free it. */
  datatype Doomed = Doomed(d: Disk, role: Roles, f: Inum, r: FileRep)

  ghost predicate DoomedOk(x: Doomed) {
    ChainOk(x.d, x.role, x.f, x.r) && BitsOk(x.d, x.role)
  }

  /** What recursive_unlink finds at inode j: nothing but the data blocks of the
      inodes before j has been freed, and no lock is held that it takes. */
  ghost predicate Freeing(x: Doomed, d: Disk, role: Roles, held: set<Inum>, j: nat) {
    && j < |x.r.inodes| && role == x.role - SetOf(Upto(x.r.blocks, DIRECT * j))
    && (forall b :: !IsBitmap(b) ==> At(d, b) == At(x.d, b))
    && (forall b :: b in held ==> !IsBitmap(b) && b !in x.r.inodes)
  }

  /** Reads inode j and frees its data blocks. */
  method FreeInode(v: Vol, ino: Inum, ghost x: Doomed, ghost j: nat) returns (next: Inum)
    requires v.Valid() && DoomedOk(x) && Freeing(x, v.disk, v.role, v.held, j) && ino == x.r.inodes[j]
    modifies v
    ensures v.Valid() && v.held == old(v.held) && v.stray == old(v.stray)
    ensures v.role == x.role - SetOf(Upto(x.r.blocks, DIRECT * (j + 1)))
    ensures forall b :: !IsBitmap(b) ==> At(v.disk, b) == At(x.d, b)
    ensures next == NextOf(x.r, j)
  {
    InodeStays(x.d, x.role, x.f, x.r, j);
    SlotsInRange(x.d, x.role, x.f, x.r, j);
    BitmapOf(ino);
    UptoIn(x.r.blocks, DIRECT * j, ino);
    var ok, n := v.SafeGet(ino, 0);
    next := AsFile(n).next;
    ghost var k := FreeSlots(v, AsFile(n).slots);
    SlotBlocks(x.d, x.role, x.f, x.r, j, AsFile(n).slots, k);
  }

  lemma UptoIn(s: seq<Inum>, n: nat, b: Inum)
    ensures b !in s ==> b !in Upto(s, n)
  {
  }

  /** `recursive_unlink` from inode j of the file on: frees that inode, all behind it
      and their data blocks. */
  method RecursiveUnlink(v: Vol, ino: Inum, ghost x: Doomed, ghost j: nat)
    requires v.Valid() && DoomedOk(x) && Freeing(x, v.disk, v.role, v.held, j) && ino == x.r.inodes[j]
    modifies v
    ensures v.Valid() && v.held == old(v.held) && v.stray == old(v.stray)
    ensures v.role == x.role - (SetOf(x.r.blocks) + SetOf(x.r.inodes[j..]))
    ensures forall b :: !IsBitmap(b) ==> At(v.disk, b) == At(x.d, b)
    decreases |x.r.inodes| - j
  {
    var next := FreeInode(v, ino, x, j);
    InodeStays(x.d, x.role, x.f, x.r, j);
    NextIsThere(x, j);
    if next != 0 {
      RecursiveUnlink(v, next, x, j + 1);
    }
    BitmapOf(ino);
    ghost var rest := SetOf(x.r.blocks) + SetOf(x.r.inodes[j + 1..]);
    v.Remove(ino);
    MinusOne(x.role, rest, ino);
    FirstAndRest(x.r.inodes, j);
  }

  lemma MinusOne(role: Roles, s: set<Inum>, b: Inum)
    ensures (role - s) - {b} == role - (s + {b})
  {
  }

  lemma FirstAndRest(s: seq<Inum>, j: nat)
    requires j < |s|
    ensures SetOf(s[j..]) == SetOf(s[j + 1..]) + {s[j]}
  {
    assert s[j..] == [s[j]] + s[j + 1..];
  }

  lemma NextIsThere(x: Doomed, j: nat)
    requires DoomedOk(x) && j < |x.r.inodes|
    ensures NextOf(x.r, j) == 0 <==> j + 1 == |x.r.inodes|
    ensures NextOf(x.r, j) == 0 ==> SetOf(Upto(x.r.blocks, DIRECT * (j + 1))) == SetOf(x.r.blocks) + SetOf(x.r.inodes[j + 1..])
  {
    if j + 1 < |x.r.inodes| {
      InodeStays(x.d, x.role, x.f, x.r, j + 1);
    }
  }

  lemma InodeStays(d: Disk, role: Roles, f: Inum, r: FileRep, j: nat)
    requires ChainOk(d, role, f, r) && BitsOk(d, role) && j < |r.inodes|
    ensures r.inodes[j] in role && r.inodes[j] !in r.blocks && r.inodes[j] < CAPACITY && !IsReserved(r.inodes[j])
    ensures At(d, r.inodes[j]).FileNode? && At(d, r.inodes[j]).file.next == NextOf(r, j)
  {
    assert InodeOk(d, role, f, r, j);
    forall k | 0 <= k < |r.blocks| ensures r.blocks[k] != r.inodes[j] {
      assert DataOk(d, role, f, r, k);
    }
  }

  // ----- the entry -----

  /** The entries without the first of that name. */
  function Without(es: seq<Entry>, name: string): seq<Entry> {
    if es == [] then [] else if es[0].name == name then es[1..] else [es[0]] + Without(es[1..], name)
  }

  lemma {:induction false} WithoutFirst(xs: seq<Entry>, e: Entry, ys: seq<Entry>)
    requires !Named(xs, e.name)
    ensures Without(xs + [e] + ys, e.name) == xs + ys
  {
    var all := xs + [e] + ys;
    if xs == [] {
      assert all[0] == e && all[1..] == ys && xs + ys == ys;
    } else {
      assert xs[0].name != e.name;
      assert xs == [xs[0]] + xs[1..];
      NamedIn([xs[0]], xs[1..], e.name);
      WithoutFirst(xs[1..], e, ys);
      assert all[0] == xs[0] && all[1..] == xs[1..] + [e] + ys;
      assert [xs[0]] + (xs[1..] + ys) == xs + ys;
    }
  }

  /** The loop that copies every entry but one. */
  method DropEntry(entries: seq<Entry>, index: nat) returns (es: seq<Entry>)
    requires index < |entries|
    ensures es == entries[..index] + entries[index + 1..]
  {
    es := [];
    for i := 0 to |entries|
      invariant es == if i <= index then entries[..i] else entries[..index] + entries[index + 1..i]
    {
      if i != index {
        es := es + [entries[i]];
      }
    }
  }

  /** The entry leaves its block, and so the directory. */
  lemma Dropped(d: Disk, role: Roles, dir: Inum, bs: seq<Inum>, t: nat, node: DirInode, index: nat, es: seq<Entry>)
    requires DirOk(d, role, dir, bs) && t < |bs| && AtDir(d, bs, t, bs[t], node) && index < |node.entries|
    requires es == node.entries[..index] + node.entries[index + 1..]
    requires !Named(All(d, bs[..t]) + node.entries[..index], node.entries[index].name)
    ensures var d' := d[bs[t] := DirNode(node.(entries := es))];
      DirOk(d', role, dir, bs) && All(d', bs) == Without(All(d, bs), node.entries[index].name)
  {
    assert BlockOk(d, role, dir, bs, t);
    Rewritten(d, role, dir, bs, t, node.(entries := es));
    AllAt(d, bs, t);
    Cut(All(d, bs[..t]), node.entries, index, All(d, bs[t + 1..]));
    WithoutFirst(All(d, bs[..t]) + node.entries[..index], node.entries[index],
                 node.entries[index + 1..] + All(d, bs[t + 1..]));
  }

  lemma Cut(xs: seq<Entry>, es: seq<Entry>, index: nat, ys: seq<Entry>)
    requires index < |es|
    ensures xs + es + ys == (xs + es[..index]) + [es[index]] + (es[index + 1..] + ys)
    ensures xs + (es[..index] + es[index + 1..]) + ys == (xs + es[..index]) + (es[index + 1..] + ys)
  {
    assert es == es[..index] + [es[index]] + es[index + 1..];
  }

  /** Finds the entry, takes it out of its block and says whose it was. */
  method TakeEntry(v: Vol, dir: Inum, node0: DirInode, name: string, ghost bs: seq<Inum>) returns (found: bool, ino: Inum)
    requires DirReady(v, dir, bs) && AtDir(v.disk, bs, 0, dir, node0)
    modifies v
    ensures DirReady(v, dir, bs) && v.role == old(v.role) && v.stray == old(v.stray)
    ensures found <==> Named(All(old(v.disk), bs), name)
    ensures !found ==> v.disk == old(v.disk)
    ensures found ==> ino == Find(All(old(v.disk), bs), name) && All(v.disk, bs) == Without(All(old(v.disk), bs), name)
    ensures DirGrew(old(v.disk), old(v.role), v.disk, v.role, dir)
    ensures TimesOf(v.disk, dir) == TimesOf(old(v.disk), dir)
  {
    var target, node, index;
    ghost var t;
    ino := 0;
    found, target, node, index, t := FindEntry(v, dir, node0, name, bs);
    if found {
      ino := node.entries[index].inum;
      var es := DropEntry(node.entries, index);
      Dropped(v.disk, v.role, dir, bs, t, node, index, es);
      BlockOf(v.disk, v.role, dir, bs, t);
      BlockOf(v.disk, v.role, dir, bs, 0);
      assert BlockOk(v.disk, v.role, dir, bs, t);
      var ok := v.SafePut(target, DirNode(node.(entries := es)), dir);
    }
  }

  /** What unlink does to a directory and the file the name led to. */
  ghost predicate Unlinked(d: Disk, role: Roles, dir: Inum, bs: seq<Inum>, d': Disk, role': Roles, name: string, r: FileRep) {
    && DirOk(d', role', dir, bs) && All(d', bs) == Without(All(d, bs), name)
    && role' == role - BlocksOf(r)
    && (forall b :: b in role && !OfDir(role, b, dir) && !IsBitmap(b) ==> At(d', b) == At(d, b))
  }

  /** The file's blocks are not the directory's. */
  lemma Apart(d: Disk, role: Roles, dir: Inum, bs: seq<Inum>, f: Inum, r: FileRep)
    requires DirOk(d, role, dir, bs) && ChainOk(d, role, f, r) && BitsOk(d, role)
    ensures forall b :: b in BlocksOf(r) ==> b in role && !OfDir(role, b, dir)
    ensures dir !in r.inodes
  {
    Members(d, role, f, r);
    assert BlockOk(d, role, dir, bs, 0);
    forall b | b in BlocksOf(r) ensures b in role && !OfDir(role, b, dir) {
      assert Holds(r, b);
    }
  }

  lemma FileKept(d: Disk, role: Roles, f: Inum, r: FileRep, d': Disk, dir: Inum)
    requires ChainOk(d, role, f, r) && BitsOk(d, role) && DirGrew(d, role, d', role, dir)
    ensures ChainOk(d', role, f, r)
  {
    Members(d, role, f, r);
    ChainFrame(d, role, f, r, d', role);
  }

  lemma UnlinkedFrom(d: Disk, role: Roles, dir: Inum, bs: seq<Inum>, d1: Disk, d': Disk, role': Roles, name: string,
                     f: Inum, r: FileRep)
    requires BitsOk(d, role) && DirGrew(d, role, d1, role, dir)
    requires DirOk(d1, role, dir, bs) && All(d1, bs) == Without(All(d, bs), name)
    requires ChainOk(d1, role, f, r) && BitsOk(d1, role)
    requires role' == role - BlocksOf(r) && forall b :: !IsBitmap(b) ==> At(d', b) == At(d1, b)
    ensures Unlinked(d, role, dir, bs, d', role', name, r)
  {
    Apart(d1, role, dir, bs, f, r);
    ChainKept(d1, role, dir, bs, d', role');
    AllSame(d1, d', bs);
  }

  /** Frees the whole file, with the directory's lock held. */
  method FreeFile(v: Vol, dir: Inum, ino: Inum, ghost bs: seq<Inum>, ghost r: FileRep)
    requires DirReady(v, dir, bs) && ChainOk(v.disk, v.role, ino, r)
    modifies v
    ensures v.Valid() && v.held == old(v.held) && v.stray == old(v.stray)
    ensures v.role == old(v.role) - BlocksOf(r)
    ensures forall b :: !IsBitmap(b) ==> At(v.disk, b) == old(At(v.disk, b))
  {
    Apart(v.disk, v.role, dir, bs, ino, r);
    BlockOf(v.disk, v.role, dir, bs, 0);
    ghost var x := Doomed(v.disk, v.role, ino, r);
    assert Upto(r.blocks, 0) == [];
    RecursiveUnlink(v, ino, x, 0);
    assert r.inodes[0..] == r.inodes;
  }

  /** `unlink` of a name that leads to a file: NOENT if there is no such name; else
      its first entry goes and exactly the file's blocks are freed. */
  method Unlink(v: Vol, dir: Inum, name: string, now: nat, ghost bs: seq<Inum>, ghost r: FileRep) returns (ok: bool)
    requires v.Valid() && v.held == {} && dir in v.role && DirOk(v.disk, v.role, dir, bs)
    requires Named(All(v.disk, bs), name) ==> ChainOk(v.disk, v.role, Find(All(v.disk, bs), name), r)
    modifies v
    ensures v.Valid() && v.held == {} && v.stray == old(v.stray)
    ensures ok <==> Named(All(old(v.disk), bs), name)
    ensures !ok ==> OnlyTimes(old(v.disk), old(v.role), dir, bs, v.disk, v.role)
    ensures ok ==> Unlinked(old(v.disk), old(v.role), dir, bs, v.disk, v.role, name, r)
    ensures TimesOf(v.disk, dir) == TimesOf(old(v.disk), dir).(mtime := now, ctime := now)
  {
    BlockOf(v.disk, v.role, dir, bs, 0);
    v.Acquire(dir);
    var touched, node := TouchTimes(v, dir, false, now, bs);
    TimesChanged(old(v.disk), v.role, dir, bs, v.disk);
    ghost var d1 := v.disk;
    var ino;
    ok, ino := TakeEntry(v, dir, node, name, bs);
    DirGrewTwice(old(v.disk), v.role, d1, v.role, v.disk, v.role, dir);
    if ok {
      ghost var d2, role2 := v.disk, v.role;
      FileKept(old(v.disk), role2, ino, r, d2, dir);
      FreeFile(v, dir, ino, bs, r);
      UnlinkedFrom(old(v.disk), role2, dir, bs, d2, v.disk, v.role, name, ino, r);
    }
    v.Release(dir);
  }
}
