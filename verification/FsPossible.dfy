/** Create, mkdir and unlink on values: in a sound world with room there is a world they
    lead to. */
module FsPossible {
  import opened Volume
  import opened FileChain
  import opened FileSteps
  import opened DirChain
  import opened DirOps
  import opened DirInsert
  import opened DirRemove
  import opened FsTree
  import opened FsSteps
  import opened FsUnlink
  import opened FsEvents

  ghost predicate Free(role: Roles, b: Inum) {
    b < CAPACITY && b !in role && !IsReserved(b)
  }

  lemma PickFree(d: Disk, role: Roles) returns (b: Inum)
    requires BitsOk(d, role) && Room(role, 1)
    ensures Free(role, b)
  {
    RoomIsFree(d, role);
    b :| b < CAPACITY && b !in role;
  }

  /** A free block is taken for a node. */
  lemma Claimed(d: Disk, role: Roles, b: Inum, n: Node, r: Role)
    requires BitsOk(d, role) && Free(role, b) && !r.Reserved?
    ensures BitsOk(WithBit(d[b := n], b), role[b := r])
    ensures forall i :: !IsBitmap(i) ==> At(WithBit(d[b := n], b), i) == if i == b then n else At(d, i)
  {
    OtherBlock(d, role, b, n);
    SetBitOk(d[b := n], role, b, r);
    NewBlockFrame(d, b, n);
  }

  /** A zero block is linked behind a directory. */
  lemma LinkCan(d: Disk, role: Roles, a: Inum, bs: seq<Inum>) returns (d': Disk, role': Roles, tmp: Inum)
    requires BitsOk(d, role) && DirOk(d, role, a, bs) && Room(role, 1)
    ensures BitsOk(d', role') && DirOk(d', role', a, bs + [tmp]) && SameEntries(d, bs, d', bs + [tmp])
    ensures tmp !in role && role' == role[tmp := Dir(a, |bs|)] && DirGrew(d, role, d', role', a)
    ensures ModeOf(At(d', a)) == ModeOf(At(d, a))
  {
    var last := bs[|bs| - 1];
    BlockOf(d, role, a, bs, |bs| - 1);
    assert BlockOk(d, role, a, bs, |bs| - 1);
    tmp := PickFree(d, role);
    role' := role[tmp := Dir(a, |bs|)];
    Claimed(d, role, tmp, BLANK, Dir(a, |bs|));
    var d1 := WithBit(d[tmp := BLANK], tmp);
    var n := DirNode(AsDir(At(d, last)).(next := tmp));
    OtherBlock(d1, role', last, n);
    d' := d1[last := n];
    LinkFrame(d, role, a, bs, tmp, d');
    DirOps.Linked(d, role, a, bs, tmp, d', role');
  }

  lemma FillFrame(d: Disk, role: Roles, a: Inum, bs: seq<Inum>, t: nat, e: Entry, ino: Inum, d1: Disk, d': Disk)
    requires BitsOk(d, role) && DirOk(d, role, a, bs) && t < |bs| && IsDir(At(d, bs[t])) && ino !in role
    requires forall i :: !IsBitmap(i) && i != ino ==> At(d1, i) == At(d, i)
    requires var node := AsDir(At(d, bs[t])); d' == d1[bs[t] := DirNode(node.(entries := node.entries + [e]))]
    ensures forall j :: 0 <= j < |bs| ==> Ent(d', bs[j]) == if j == t then Ent(d, bs[t]) + [e] else Ent(d, bs[j])
    ensures ModeOf(At(d', a)) == ModeOf(At(d, a))
  {
    BlockOf(d, role, a, bs, t);
    assert BlockOk(d, role, a, bs, t);
    forall j | 0 <= j < |bs| ensures Ent(d', bs[j]) == if j == t then Ent(d, bs[t]) + [e] else Ent(d, bs[j]) {
      BlockOf(d, role, a, bs, j);
      assert BlockOk(d, role, a, bs, j);
    }
    BlockOf(d, role, a, bs, 0);
    assert BlockOk(d, role, a, bs, 0);
  }

  /** An entry for a new block is filled in at block t. */
  lemma FillCan(d: Disk, role: Roles, a: Inum, bs: seq<Inum>, t: nat, name: string, ino: Inum, n: Node, p: Purpose)
    returns (d': Disk, role': Roles)
    requires BitsOk(d, role) && DirOk(d, role, a, bs) && t < |bs| && |Ent(d, bs[t])| < ENTRIES && !p.For?
    requires Free(role, ino)
    ensures BitsOk(d', role') && DirOk(d', role', a, bs) && DirGrewBy(d, role, d', role', a, ino)
    ensures role' == role[ino := RoleOf(p, ino)] && At(d', ino) == n && ModeOf(At(d', a)) == ModeOf(At(d, a))
    ensures All(d', bs) == All(d, bs[..t]) + (Ent(d, bs[t]) + [Entry(name, ino)]) + All(d, bs[t + 1..])
    ensures forall j :: 0 <= j < |bs| ==>
              Ent(d', bs[j]) == if j == t then Ent(d, bs[t]) + [Entry(name, ino)] else Ent(d, bs[j])
  {
    BlockOf(d, role, a, bs, t);
    assert BlockOk(d, role, a, bs, t);
    role' := role[ino := RoleOf(p, ino)];
    Claimed(d, role, ino, n, RoleOf(p, ino));
    var node, d1 := AsDir(At(d, bs[t])), WithBit(d[ino := n], ino);
    var e := Entry(name, ino);
    Filled(d, role, a, bs, t, node, d1, role', e, n);
    var new_ := DirNode(node.(entries := node.entries + [e]));
    OtherBlock(d1, role', bs[t], new_);
    d' := d1[bs[t] := new_];
    FillFrame(d, role, a, bs, t, e, ino, d1, d');
  }

  /** The blocks after an insertion: the entry is the last of the first block with room,
      a new one if there was none. */
  ghost predicate EntryAt(d: Disk, bs: seq<Inum>, d': Disk, bs': seq<Inum>, e: Entry) {
    var t := FirstRoom(d, bs);
    && t < |bs'| && |bs| <= |bs'|
    && (forall j :: 0 <= j < |bs| && j != t ==> Ent(d', bs'[j]) == Ent(d, bs[j]))
    && Ent(d', bs'[t]) == (if t < |bs| then Ent(d, bs[t]) else []) + [e]
  }

  lemma InsertCan(d: Disk, role: Roles, a: Inum, bs: seq<Inum>, name: string, n: Node, p: Purpose)
    returns (d': Disk, role': Roles, bs': seq<Inum>, e: Entry)
    requires BitsOk(d, role) && DirOk(d, role, a, bs) && Room(role, 2) && !p.For?
    ensures BitsOk(d', role') && Inserted(d, role, a, bs, d', role', bs', e, n, p) && e.name == name
    ensures EntryAt(d, bs, d', bs', e) && |role'| <= |role| + 2 && ModeOf(At(d', a)) == ModeOf(At(d, a))
  {
    var t := FirstRoom(d, bs);
    var d1, role1 := d, role;
    bs' := bs;
    if t == |bs| {
      var tmp;
      d1, role1, tmp := LinkCan(d, role, a, bs);
      bs' := bs + [tmp];
    }
    var ino := PickFree(d1, role1);
    d', role' := FillCan(d1, role1, a, bs', t, name, ino, n, p);
    e := Entry(name, ino);
    assert bs[..|bs|] == bs;
    InsertedFrom(d, role, a, bs, d, d1, role1, bs', t, d', role', e, n, p);
  }

  /** Create of a name it does not see is possible wherever there is room. */
  lemma CreateCan(w: World, a: Inum, name: string, now: nat) returns (w': World, ev: Event)
    requires Sound(w) && a in w.x.dirs && !Named(Seen(w.d, w.x.dirs[a]), name) && Room(w.role, 2)
    ensures Applies(ev, w, w') && Sound(w') && ev.Created? && ev.a == a && ev.e.name == name && ev.now == now
    ensures EntryAt(w.d, w.x.dirs[a], w'.d, ev.bs, ev.e) && |w'.role| <= |w.role| + 2
  {
    assert DirHere(w.d, w.role, w.x, a);
    RankOf(w.d, w.x, a);
    var d', role', bs', e := InsertCan(w.d, w.role, a, w.x.dirs[a], name, FileBlock(now), NewFile);
    ev := Created(a, e, now, bs');
    w' := World(d', role', WithNew(w.x, a, bs', e.inum, NewFile));
    EventKeeps(ev, w, w');
  }

  /** In a directory with room any free block may become the file. */
  lemma CreateAt(w: World, a: Inum, name: string, ino: Inum) returns (w': World, ev: Event)
    requires Sound(w) && a in w.x.dirs && !Named(Seen(w.d, w.x.dirs[a]), name) && Free(w.role, ino)
    requires FirstRoom(w.d, w.x.dirs[a]) < |w.x.dirs[a]|
    ensures Applies(ev, w, w') && Sound(w') && ino in w'.role
  {
    var bs, e := w.x.dirs[a], Entry(name, ino);
    var t := FirstRoom(w.d, bs);
    assert DirHere(w.d, w.role, w.x, a);
    RankOf(w.d, w.x, a);
    var d', role' := FillCan(w.d, w.role, a, bs, t, name, ino, FileBlock(0), NewFile);
    assert bs[..|bs|] == bs;
    InsertedFrom(w.d, w.role, a, bs, w.d, w.d, w.role, bs, t, d', role', e, FileBlock(0), NewFile);
    ev := Created(a, e, 0, bs);
    w' := World(d', role', WithNew(w.x, a, bs, ino, NewFile));
    EventKeeps(ev, w, w');
  }

  /** So is mkdir of any name. */
  lemma MkdirCan(w: World, a: Inum, name: string, now: nat) returns (w': World, ev: Event)
    requires Sound(w) && a in w.x.dirs && Room(w.role, 2)
    ensures Applies(ev, w, w') && Sound(w') && ev.MadeDir? && ev.a == a && ev.e.name == name
  {
    assert DirHere(w.d, w.role, w.x, a);
    RankOf(w.d, w.x, a);
    var d', role', bs', e := InsertCan(w.d, w.role, a, w.x.dirs[a], name, DirBlock(now), NewDir);
    ev := MadeDir(a, e, now, bs');
    w' := World(d', role', WithNew(w.x, a, bs', e.inum, NewDir));
    EventKeeps(ev, w, w');
  }

  /** The first entry of a directory leaves its block. */
  ghost function Dropping(d: Disk, a: Inum): Disk
    requires Ent(d, a) != []
  {
    d[a := DirNode(AsDir(At(d, a)).(entries := Ent(d, a)[1..]))]
  }

  lemma DropOne(d: Disk, role: Roles, a: Inum, bs: seq<Inum>)
    requires BitsOk(d, role) && DirOk(d, role, a, bs) && Ent(d, a) != []
    ensures bs != [] && bs[0] == a && DirOk(Dropping(d, a), role, a, bs)
    ensures All(Dropping(d, a), bs) == Without(All(d, bs), Ent(d, a)[0].name)
  {
    BlockOf(d, role, a, bs, 0);
    assert BlockOk(d, role, a, bs, 0);
    var node := AsDir(At(d, a));
    assert node.entries[1..] == node.entries[..0] + node.entries[0 + 1..];
    assert !Named(All(d, bs[..0]) + node.entries[..0], node.entries[0].name);
    Dropped(d, role, a, bs, 0, node, 0, node.entries[1..]);
  }

  lemma DropFrame(d: Disk, role: Roles, a: Inum, bs: seq<Inum>)
    requires BitsOk(d, role) && DirOk(d, role, a, bs) && Ent(d, a) != []
    ensures BitsOk(Dropping(d, a), role) && DirGrew(d, role, Dropping(d, a), role, a)
    ensures Ent(Dropping(d, a), a) == Ent(d, a)[1..] && ModeOf(At(Dropping(d, a), a)) == ModeOf(At(d, a))
    ensures forall j :: 0 < j < |bs| ==> Ent(Dropping(d, a), bs[j]) == Ent(d, bs[j])
  {
    BlockOf(d, role, a, bs, 0);
    assert BlockOk(d, role, a, bs, 0);
    OtherBlock(d, role, a, DirNode(AsDir(At(d, a)).(entries := Ent(d, a)[1..])));
    forall j | 0 < j < |bs| ensures Ent(Dropping(d, a), bs[j]) == Ent(d, bs[j]) {
      BlockOf(d, role, a, bs, j);
    }
  }

  /** The first entry of the directory leads to an empty file. */
  ghost predicate EmptyFirst(w: World, a: Inum) {
    && Ent(w.d, a) != []
    && var f := Ent(w.d, a)[0].inum; f in w.x.files && w.x.files[f] == FileRep([f], [])
  }

  /** The world without the file of the first entry of a directory. */
  ghost function WithoutFirstFile(w: World, a: Inum): World
    requires Ent(w.d, a) != []
  {
    var f := Ent(w.d, a)[0].inum;
    World(WithoutBit(Dropping(w.d, a), f), w.role - {f}, WithoutFile(w.x, f))
  }

  lemma NotBitmaps(d: Disk, role: Roles, a: Inum, bs: seq<Inum>)
    requires BitsOk(d, role) && DirOk(d, role, a, bs)
    ensures forall j :: 0 <= j < |bs| ==> !IsBitmap(bs[j])
  {
    forall j | 0 <= j < |bs| ensures !IsBitmap(bs[j]) {
      BlockOf(d, role, a, bs, j);
    }
  }

  lemma FoundFirst(d: Disk, bs: seq<Inum>, e: Entry)
    requires bs != [] && Ent(d, bs[0]) != [] && Ent(d, bs[0])[0] == e
    ensures Named(All(d, bs), e.name) && Find(All(d, bs), e.name) == e.inum
  {
    AllAt(d, bs, 0);
    assert All(d, bs)[0] == e;
    FindFirst(All(d, bs), 0, e.name);
  }

  lemma DropParts(d: Disk, role: Roles, a: Inum, bs: seq<Inum>, f: Inum)
    requires BitsOk(d, role) && DirOk(d, role, a, bs) && Ent(d, a) != []
    requires f in role && role[f] == Inode(f, 0) && ChainOk(d, role, f, FileRep([f], []))
    ensures BitsOk(WithoutBit(Dropping(d, a), f), role - {f})
    ensures Unlinked(d, role, a, bs, WithoutBit(Dropping(d, a), f), role - {f}, Ent(d, a)[0].name, FileRep([f], []))
  {
    var d1, r := Dropping(d, a), FileRep([f], []);
    DropOne(d, role, a, bs);
    DropFrame(d, role, a, bs);
    FileKept(d, role, f, r, d1, a);
    ClearBitOk(d1, role, f);
    BitmapOf(f);
    assert BlocksOf(r) == {f};
    UnlinkedFrom(d, role, a, bs, d1, WithoutBit(d1, f), role - {f}, Ent(d, a)[0].name, f, r);
  }

  lemma Fewer(role: Roles, f: Inum)
    ensures |role - {f}| <= |role|
  {
    assert role - {f} == if f in role then role - {f} else role;
  }

  lemma DropLeaves(d: Disk, role: Roles, a: Inum, bs: seq<Inum>, f: Inum)
    requires BitsOk(d, role) && DirOk(d, role, a, bs) && Ent(d, a) != [] && f < CAPACITY
    ensures var d' := WithoutBit(Dropping(d, a), f);
      && bs != [] && bs[0] == a && Ent(d', a) == Ent(d, a)[1..] && ModeOf(At(d', a)) == ModeOf(At(d, a))
      && forall j :: 0 < j < |bs| ==> Ent(d', bs[j]) == Ent(d, bs[j])
  {
    DropOne(d, role, a, bs);
    DropFrame(d, role, a, bs);
    NotBitmaps(d, role, a, bs);
    BitmapOf(f);
  }

  lemma UnlinkLeaves(w: World, a: Inum)
    requires Sound(w) && a in w.x.dirs && EmptyFirst(w, a)
    ensures var w', bs := WithoutFirstFile(w, a), w.x.dirs[a];
      && bs != [] && bs[0] == a && Ent(w'.d, a) == Ent(w.d, a)[1..] && |w'.role| <= |w.role|
      && ModeOf(At(w'.d, a)) == ModeOf(At(w.d, a))
      && forall j :: 0 < j < |bs| ==> Ent(w'.d, bs[j]) == Ent(w.d, bs[j])
  {
    var f := Ent(w.d, a)[0].inum;
    assert DirHere(w.d, w.role, w.x, a);
    InUse(w.d, w.role, w.x, f);
    DropLeaves(w.d, w.role, a, w.x.dirs[a], f);
    Fewer(w.role, f);
  }

  /** Unlink of the first name of a directory, which leads to an empty file. */
  lemma UnlinkCan(w: World, a: Inum)
    requires Sound(w) && a in w.x.dirs && EmptyFirst(w, a)
    ensures Applies(Gone(a, Ent(w.d, a)[0].name), w, WithoutFirstFile(w, a)) && Sound(WithoutFirstFile(w, a))
  {
    UnlinkApplies(w, a);
    EventKeeps(Gone(a, Ent(w.d, a)[0].name), w, WithoutFirstFile(w, a));
  }

  lemma GoneFrom(w: World, w': World, a: Inum, name: string, f: Inum)
    requires a in w.x.dirs && Named(All(w.d, w.x.dirs[a]), name) && Find(All(w.d, w.x.dirs[a]), name) == f && f in w.x.files
    requires BitsOk(w'.d, w'.role) && ModeOf(At(w'.d, a)) == ModeOf(At(w.d, a)) && w'.x == WithoutFile(w.x, f)
    requires Unlinked(w.d, w.role, a, w.x.dirs[a], w'.d, w'.role, name, w.x.files[f])
    ensures Applies(Gone(a, name), w, w')
  {
  }

  lemma UnlinkApplies(w: World, a: Inum)
    requires Sound(w) && a in w.x.dirs && EmptyFirst(w, a)
    ensures Applies(Gone(a, Ent(w.d, a)[0].name), w, WithoutFirstFile(w, a))
  {
    var f := Ent(w.d, a)[0].inum;
    assert DirHere(w.d, w.role, w.x, a) && FileHere(w.d, w.role, w.x, f);
    InUse(w.d, w.role, w.x, f);
    UnlinkLeaves(w, a);
    DropParts(w.d, w.role, a, w.x.dirs[a], f);
    FoundFirst(w.d, w.x.dirs[a], Ent(w.d, a)[0]);
    GoneFrom(w, WithoutFirstFile(w, a), a, Ent(w.d, a)[0].name, f);
  }
}
