/** The file system operations of one client on a sound file system: each takes its
    locks, gives them all back, touches no extent without its lock, and is one of the
    events below. */
module FsEvents {
  import opened Blocks
  import opened Volume
  import opened FileChain
  import opened DirChain
  import opened DirInsert
  import opened DirRemove
  import opened FsTree
  import opened FsSteps
  import opened FsUnlink

  datatype World = World(d: Disk, role: Roles, x: Rep)

  ghost predicate Sound(w: World) {
    FsOk(w.d, w.role, w.x)
  }

  /** What an operation did. `bs` and `r` are the blocks afterwards. A read and the marking
      of a link change only the header of the file. */
  datatype Event =
    | Stamped(a: Inum)
    | Created(a: Inum, e: Entry, now: nat, bs: seq<Inum>)
    | MadeDir(a: Inum, e: Entry, now: nat, bs: seq<Inum>)
    | HeaderChanged(f: Inum)
    | Written(f: Inum, off: nat, data: seq<byte>, r: FileRep)
    | Gone(a: Inum, name: string)

  function EntriesOf(w: World, a: Inum): seq<Entry>
    requires a in w.x.dirs
  {
    All(w.d, w.x.dirs[a])
  }

  /** The first block of what an event is about. */
  function Target(ev: Event): Inum {
    match ev
    case HeaderChanged(f) => f
    case Written(f, _, _, _) => f
    case _ => ev.a
  }

  /** Its mode stays, unless it is marked as a link. */
  predicate ModeStays(ev: Event, d: Disk, d': Disk) {
    var o := Target(ev);
    ModeOf(At(d', o)) == ModeOf(At(d, o)) || (ev.HeaderChanged? && ModeOf(At(d', o)) == 2)
  }

  ghost predicate Applies(ev: Event, w: World, w': World) {
    && BitsOk(w'.d, w'.role) && ModeStays(ev, w.d, w'.d)
    && match ev
       case Stamped(a) =>
         a in w.x.dirs && OnlyTimes(w.d, w.role, a, w.x.dirs[a], w'.d, w'.role) && w'.x == w.x
       case Created(a, e, now, bs) =>
         && a in w.x.dirs && a in w.x.rank && !Named(Seen(w.d, w.x.dirs[a]), e.name)
         && Inserted(w.d, w.role, a, w.x.dirs[a], w'.d, w'.role, bs, e, FileBlock(now), NewFile)
         && w'.x == WithNew(w.x, a, bs, e.inum, NewFile)
       case MadeDir(a, e, now, bs) =>
         && a in w.x.dirs && a in w.x.rank
         && Inserted(w.d, w.role, a, w.x.dirs[a], w'.d, w'.role, bs, e, DirBlock(now), NewDir)
         && w'.x == WithNew(w.x, a, bs, e.inum, NewDir)
       case HeaderChanged(f) =>
         && f in w.x.files && f in w.x.content && w'.x == w.x && w'.role == w.role
         && Wrote(w.d, w.role, w'.d, w'.role, f, w.x.files[f], w.x.content[f])
       case Written(f, off, data, r) =>
         && f in w.x.files && f in w.x.content
         && Wrote(w.d, w.role, w'.d, w'.role, f, r, Overlay(w.x.content[f], off, data))
         && w'.x == WithFile(w.x, f, r, Overlay(w.x.content[f], off, data))
       case Gone(a, name) =>
         && a in w.x.dirs && Named(EntriesOf(w, a), name)
         && var f := Find(EntriesOf(w, a), name);
            && f in w.x.files && Unlinked(w.d, w.role, a, w.x.dirs[a], w'.d, w'.role, name, w.x.files[f])
            && w'.x == WithoutFile(w.x, f)
  }

  lemma CreatedKeeps(w: World, w': World, a: Inum, e: Entry, now: nat, bs: seq<Inum>)
    requires Sound(w) && Applies(Created(a, e, now, bs), w, w')
    ensures Sound(w')
  {
    assert Made(w'.d, w'.role, e.inum, NewFile);
    InsertKeeps(w.d, w.role, w.x, a, w'.d, w'.role, bs, e, FileBlock(now), NewFile);
  }

  lemma MadeDirKeeps(w: World, w': World, a: Inum, e: Entry, now: nat, bs: seq<Inum>)
    requires Sound(w) && Applies(MadeDir(a, e, now, bs), w, w')
    ensures Sound(w')
  {
    assert Made(w'.d, w'.role, e.inum, NewDir);
    InsertKeeps(w.d, w.role, w.x, a, w'.d, w'.role, bs, e, DirBlock(now), NewDir);
  }

  lemma ReadKeeps(w: World, w': World, f: Inum)
    requires Sound(w) && Applies(HeaderChanged(f), w, w')
    ensures Sound(w')
  {
    WroteKeeps(w.d, w.role, w.x, w'.d, w'.role, f, w.x.files[f], w.x.content[f]);
    SameFile(w.x, f);
  }

  lemma SameFile(x: Rep, f: Inum)
    requires f in x.files && f in x.content
    ensures WithFile(x, f, x.files[f], x.content[f]) == x
  {
    assert x.files[f := x.files[f]] == x.files && x.content[f := x.content[f]] == x.content;
  }

  /** What the allocator hands out is never the super block, the root or a block of
      the bitmap. */
  lemma NeverReserved(w: World, ino: Inum)
    requires Sound(w) && ino !in w.role
    ensures ino != 0 && ino != 1 && !(10 <= ino <= 200)
  {
    InUse(w.d, w.role, w.x, ROOT);
  }

  /** Every event keeps the file system sound. */
  lemma EventKeeps(ev: Event, w: World, w': World)
    requires Sound(w) && Applies(ev, w, w')
    ensures Sound(w')
  {
    match ev
    case Stamped(a) => TimesKeep(w.d, w.role, w.x, a, w'.d, w'.role);
    case Created(a, e, now, bs) => CreatedKeeps(w, w', a, e, now, bs);
    case MadeDir(a, e, now, bs) => MadeDirKeeps(w, w', a, e, now, bs);
    case HeaderChanged(f) => ReadKeeps(w, w', f);
    case Written(f, off, data, r) =>
      WroteKeeps(w.d, w.role, w.x, w'.d, w'.role, f, r, Overlay(w.x.content[f], off, data));
    case Gone(a, name) => UnlinkKeeps(w.d, w.role, w.x, a, w'.d, w'.role, name);
  }
}

module FsOps {
  import opened Blocks
  import opened Volume
  import opened FileChain
  import opened FileSteps
  import opened FileWrite
  import opened FileRead
  import opened DirChain
  import opened DirOps
  import D = DirInsert
  import U = DirRemove
  import opened FsTree
  import opened FsSteps
  import opened FsUnlink
  import opened FsEvents

  /** The volume is in a sound world and no lock is held. */
  ghost predicate Idle(v: Vol, w: World)
    reads v
  {
    v.disk == w.d && v.role == w.role && Sound(w) && v.held == {}
  }

  ghost predicate IsDirOrFree(w: World, a: Inum) {
    a < CAPACITY && !IsBitmap(a) && (a in w.role ==> a in w.x.dirs)
  }

  ghost predicate IsFileOrFree(w: World, f: Inum) {
    f < CAPACITY && !IsBitmap(f) && (f in w.role ==> f in w.x.files)
  }

  lemma DirIsSound(w: World, a: Inum)
    requires Sound(w) && a in w.x.dirs
    ensures DirOk(w.d, w.role, a, w.x.dirs[a]) && a in w.role && a in w.x.rank && a < CAPACITY && !IsReserved(a)
  {
    assert DirHere(w.d, w.role, w.x, a);
    InUse(w.d, w.role, w.x, a);
    RankOf(w.d, w.x, a);
  }

  lemma FileIsSound(w: World, f: Inum)
    requires Sound(w) && f in w.x.files
    ensures f in w.x.content && Contains(w.d, w.role, f, w.x.files[f], w.x.content[f])
    ensures f in w.role && f < CAPACITY && !IsReserved(f) && Whole(w.role, f, w.x.files[f])
  {
    assert FileHere(w.d, w.role, w.x, f);
    InUse(w.d, w.role, w.x, f);
    WholeFile(w.d, w.role, w.x, f);
  }

  /** The mode of a directory is among the fields that are not its entries. */
  lemma DirMode(d: Disk, role: Roles, a: Inum, bs: seq<Inum>)
    requires DirOk(d, role, a, bs)
    ensures ModeOf(At(d, a)) == TimesOf(d, a).mode
  {
    assert BlockOk(d, role, a, bs, 0);
  }

  lemma DirModeStays(d: Disk, role: Roles, a: Inum, bs: seq<Inum>, d': Disk, role': Roles, bs': seq<Inum>)
    requires DirOk(d, role, a, bs) && DirOk(d', role', a, bs') && TimesOf(d', a).mode == TimesOf(d, a).mode
    ensures ModeOf(At(d', a)) == ModeOf(At(d, a))
  {
    DirMode(d, role, a, bs);
    DirMode(d', role', a, bs');
  }

  lemma FileMode(d: Disk, role: Roles, f: Inum, r: FileRep)
    requires ChainOk(d, role, f, r)
    ensures ModeOf(At(d, f)) == HeaderOf(d, f).mode
  {
    assert InodeOk(d, role, f, r, 0);
  }

  lemma StampApplied(w: World, w': World, a: Inum)
    requires Sound(w) && a in w.x.dirs && BitsOk(w'.d, w'.role) && w'.x == w.x
    requires D.OnlyTimes(w.d, w.role, a, w.x.dirs[a], w'.d, w'.role) && TimesOf(w'.d, a).mode == TimesOf(w.d, a).mode
    ensures Applies(Stamped(a), w, w') && Sound(w')
  {
    DirIsSound(w, a);
    DirModeStays(w.d, w.role, a, w.x.dirs[a], w'.d, w'.role, w.x.dirs[a]);
    EventKeeps(Stamped(a), w, w');
  }

  lemma CreateApplied(w: World, w': World, a: Inum, e: Entry, now: nat, bs: seq<Inum>)
    requires Sound(w) && a in w.x.dirs && a in w.x.rank && !Named(D.Seen(w.d, w.x.dirs[a]), e.name)
    requires BitsOk(w'.d, w'.role) && w'.x == WithNew(w.x, a, bs, e.inum, NewFile) && TimesOf(w'.d, a).mode == TimesOf(w.d, a).mode
    requires D.Inserted(w.d, w.role, a, w.x.dirs[a], w'.d, w'.role, bs, e, D.FileBlock(now), NewFile)
    ensures Applies(Created(a, e, now, bs), w, w') && Sound(w')
  {
    DirIsSound(w, a);
    DirModeStays(w.d, w.role, a, w.x.dirs[a], w'.d, w'.role, bs);
    EventKeeps(Created(a, e, now, bs), w, w');
  }

  lemma WriteApplied(w: World, w': World, f: Inum, off: nat, data: seq<byte>, r: FileRep)
    requires Sound(w) && f in w.x.files && f in w.x.content && HeaderOf(w'.d, f).mode == HeaderOf(w.d, f).mode
    requires Wrote(w.d, w.role, w'.d, w'.role, f, r, Overlay(w.x.content[f], off, data))
    requires w'.x == WithFile(w.x, f, r, Overlay(w.x.content[f], off, data))
    ensures Applies(Written(f, off, data, r), w, w') && Sound(w')
  {
    FileIsSound(w, f);
    FileMode(w.d, w.role, f, w.x.files[f]);
    FileMode(w'.d, w'.role, f, r);
    EventKeeps(Written(f, off, data, r), w, w');
  }

  method Create(v: Vol, a: Inum, name: string, now: nat, ghost w: World)
    returns (ok: bool, ino: Inum, ghost ev: Event, ghost w': World)
    requires Idle(v, w) && IsDirOrFree(w, a) && |name| < NAME_LEN
    requires a in w.x.dirs ==> Room(w.role, D.CreateNeeds(w.d, w.x.dirs[a], name))
    modifies v
    ensures Idle(v, w') && v.stray == old(v.stray)
    ensures ok <==> a in w.role
    ensures !ok ==> w' == w
    ensures ok ==> Applies(ev, w, w') && TimesOf(w'.d, a) == TimesOf(w.d, a).(mtime := now, ctime := now)
    ensures ok && Named(D.Seen(w.d, w.x.dirs[a]), name) ==> ev == Stamped(a) && ino == Find(EntriesOf(w, a), name)
    ensures ok && !Named(D.Seen(w.d, w.x.dirs[a]), name) ==>
              ev.Created? && ev.a == a && ev.e == Entry(name, ino) && D.IsNewFile(At(w'.d, ino), now)
  {
    ghost var bs, bs' := if a in w.x.dirs then w.x.dirs[a] else [], [];
    if a in w.x.dirs {
      DirIsSound(w, a);
    }
    ok, ino, bs' := D.Create(v, a, name, now, bs);
    ev, w' := Stamped(a), w;
    if ok {
      if Named(D.Seen(w.d, bs), name) {
        w' := World(v.disk, v.role, w.x);
        StampApplied(w, w', a);
      } else {
        ev := Created(a, Entry(name, ino), now, bs');
        w' := World(v.disk, v.role, WithNew(w.x, a, bs', ino, NewFile));
        CreateApplied(w, w', a, Entry(name, ino), now, bs');
      }
    }
  }

  method Mkdir(v: Vol, a: Inum, name: string, now: nat, ghost w: World) returns (ino: Inum, ghost ev: Event, ghost w': World)
    requires Idle(v, w) && a in w.x.dirs && |name| < NAME_LEN
    requires Room(w.role, 1 + D.Links(w.d, w.x.dirs[a], w.x.dirs[a]))
    modifies v
    ensures Idle(v, w') && v.stray == old(v.stray)
    ensures Applies(ev, w, w') && ev.MadeDir? && ev.a == a && ev.e == Entry(name, ino) && D.IsNewDir(At(w'.d, ino), now)
    ensures TimesOf(w'.d, a) == TimesOf(w.d, a).(mtime := now, ctime := now)
  {
    DirIsSound(w, a);
    ghost var bs';
    ino, bs' := D.Mkdir(v, a, name, now, w.x.dirs[a]);
    DirModeStays(w.d, w.role, a, w.x.dirs[a], v.disk, v.role, bs');
    ev := MadeDir(a, Entry(name, ino), now, bs');
    w' := World(v.disk, v.role, WithNew(w.x, a, bs', ino, NewDir));
    EventKeeps(ev, w, w');
  }

  lemma TimesApplied(w: World, a: Inum, d': Disk)
    requires Sound(w) && a in w.x.dirs && BitsOk(d', w.role)
    requires DirOk(d', w.role, a, w.x.dirs[a]) && Ent(d', a) == Ent(w.d, a) && TimesOf(d', a).mode == TimesOf(w.d, a).mode
    requires forall b :: b != a ==> At(d', b) == At(w.d, b)
    ensures var w' := World(d', w.role, w.x); Applies(Stamped(a), w, w') && Sound(w')
  {
    DirIsSound(w, a);
    D.TimesChanged(w.d, w.role, a, w.x.dirs[a], d');
    DirModeStays(w.d, w.role, a, w.x.dirs[a], d', w.role, w.x.dirs[a]);
    EventKeeps(Stamped(a), w, World(d', w.role, w.x));
  }

  method Lookup(v: Vol, a: Inum, name: string, now: nat, ghost w: World) returns (ret: Inum, ghost w': World)
    requires Idle(v, w) && IsDirOrFree(w, a)
    modifies v
    ensures Idle(v, w') && v.stray == old(v.stray)
    ensures ret == if a in w.role then Find(EntriesOf(w, a), name) else 3
    ensures if a in w.role then Applies(Stamped(a), w, w') && TimesOf(w'.d, a) == TimesOf(w.d, a).(atime := now) else w' == w
  {
    ghost var bs := if a in w.x.dirs then w.x.dirs[a] else [];
    if a in w.x.dirs {
      DirIsSound(w, a);
    }
    ret := DirOps.Lookup(v, a, name, now, bs);
    w' := World(v.disk, v.role, w.x);
    if a in w.role {
      TimesApplied(w, a, v.disk);
    }
  }

  method Readdir(v: Vol, a: Inum, now: nat, ghost w: World) returns (ok: bool, items: map<Inum, string>, ghost w': World)
    requires Idle(v, w) && IsDirOrFree(w, a)
    modifies v
    ensures Idle(v, w') && v.stray == old(v.stray)
    ensures ok <==> a in w.role
    ensures items == if ok then Items(EntriesOf(w, a)) else map[]
    ensures if ok then Applies(Stamped(a), w, w') && TimesOf(w'.d, a) == TimesOf(w.d, a).(atime := now) else w' == w
  {
    ghost var bs := if a in w.x.dirs then w.x.dirs[a] else [];
    if a in w.x.dirs {
      DirIsSound(w, a);
    }
    ok, items := DirOps.Readdir(v, a, now, bs);
    w' := World(v.disk, v.role, w.x);
    if a in w.role {
      TimesApplied(w, a, v.disk);
    }
  }

  /** Unlink of a name that does not lead to a directory. */
  method Unlink(v: Vol, a: Inum, name: string, now: nat, ghost w: World) returns (ok: bool, ghost ev: Event, ghost w': World)
    requires Idle(v, w) && a in w.x.dirs
    requires Named(EntriesOf(w, a), name) ==> Find(EntriesOf(w, a), name) in w.x.files
    modifies v
    ensures Idle(v, w') && v.stray == old(v.stray)
    ensures ok <==> Named(EntriesOf(w, a), name)
    ensures Applies(ev, w, w') && ev == if ok then Gone(a, name) else Stamped(a)
    ensures TimesOf(w'.d, a) == TimesOf(w.d, a).(mtime := now, ctime := now)
  {
    DirIsSound(w, a);
    ghost var f := Find(EntriesOf(w, a), name);
    ghost var r := if f in w.x.files then w.x.files[f] else FileRep([], []);
    if f in w.x.files {
      FileIsSound(w, f);
    }
    ok := U.Unlink(v, a, name, now, w.x.dirs[a], r);
    DirModeStays(w.d, w.role, a, w.x.dirs[a], v.disk, v.role, w.x.dirs[a]);
    ev := if ok then Gone(a, name) else Stamped(a);
    w' := World(v.disk, v.role, if ok then WithoutFile(w.x, f) else w.x);
    EventKeeps(ev, w, w');
  }

  method Write(v: Vol, f: Inum, buf: seq<byte>, off: nat, now: nat, ghost w: World)
    returns (ok: bool, ghost ev: Event, ghost w': World)
    requires Idle(v, w) && IsFileOrFree(w, f)
    requires f in w.x.files ==> Room(w.role, Needed(w.x.files[f], LastBlock(off, |buf|)))
    modifies v
    ensures Idle(v, w') && v.stray == old(v.stray)
    ensures ok <==> f in w.role
    ensures !ok ==> w' == w
    ensures ok ==> Applies(ev, w, w') && ev.Written? && ev.f == f && ev.off == off && ev.data == buf
    ensures ok ==> HeaderOf(w'.d, f) == HeaderOf(w.d, f).(atime := now, mtime := now, size := HeaderOf(w'.d, f).size)
  {
    ghost var r, c, r' := FileRep([], []), [], FileRep([], []);
    if f in w.x.files {
      FileIsSound(w, f);
      r, c := w.x.files[f], w.x.content[f];
    }
    v.Acquire(f);
    ok, r' := InnerWrite(v, f, buf, off, now, r, c);
    v.Release(f);
    ev, w' := Written(f, off, buf, r'), w;
    if ok {
      w' := World(v.disk, v.role, WithFile(w.x, f, r', Overlay(c, off, buf)));
      WriteApplied(w, w', f, off, buf, r');
    }
  }

  /** What was written is what a read of the same place returns. */
  lemma WrittenReadsBack(c: seq<byte>, off: nat, data: seq<byte>, blocks: nat)
    ensures Slice(Overlay(c, off, data), off, |data|) == data
    ensures ReadIsExact(|Overlay(c, off, data)|, blocks, |data|, off)
  {
  }

  /** `write` and then `read` of the same bytes, from any sound file system. */
  method WriteThenRead(v: Vol, f: Inum, data: seq<byte>, off: nat, now: nat, ghost w: World) returns (back: seq<byte>)
    requires Idle(v, w) && f in w.x.files && data != []
    requires Room(w.role, Needed(w.x.files[f], LastBlock(off, |data|)))
    modifies v
    ensures back == data && v.held == {}
  {
    FileIsSound(w, f);
    var ok;
    ghost var ev, w1, w2;
    ok, ev, w1 := Write(v, f, data, off, now, w);
    FileIsSound(w1, f);
    ok, back, w2 := Read(v, f, |data|, off, now, w1);
    WrittenReadsBack(w.x.content[f], off, data, |w1.x.files[f].blocks|);
  }

  method Read(v: Vol, f: Inum, n: nat, off: nat, now: nat, ghost w: World) returns (ok: bool, buf: seq<byte>, ghost w': World)
    requires Idle(v, w) && IsFileOrFree(w, f)
    modifies v
    ensures Idle(v, w') && v.stray == old(v.stray)
    ensures ok <==> n == 0 || f in w.role
    ensures ok && f in w.role ==> f in w.x.files && f in w.x.content
    ensures ok && f in w.role ==>
              var c, blocks := w.x.content[f], |w.x.files[f].blocks|;
              && |buf| == ReadLength(|c|, blocks, n, off)
              && buf == Slice(Padded(c, blocks), off, |buf|)
              && (buf == Slice(c, off, n) <==> ReadIsExact(|c|, blocks, n, off))
    ensures if n == 0 || f !in w.role then w' == w
            else Applies(HeaderChanged(f), w, w') && HeaderOf(w'.d, f) == HeaderOf(w.d, f).(atime := now)
  {
    ghost var r, c := FileRep([], []), [];
    if f in w.x.files {
      FileIsSound(w, f);
      r, c := w.x.files[f], w.x.content[f];
    }
    v.Acquire(f);
    ok, buf := InnerRead(v, f, n, off, now, r, c);
    v.Release(f);
    w' := w;
    if n != 0 && f in w.role {
      FileMode(w.d, w.role, f, r);
      FileMode(v.disk, v.role, f, r);
      w' := World(v.disk, v.role, w.x);
      EventKeeps(HeaderChanged(f), w, w');
    }
  }
}
