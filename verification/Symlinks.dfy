/** symlink and readlink, one after the other: symlink writes the new inode without
    holding its lock. */
module Symlinks {
  import opened Blocks
  import opened Volume
  import opened FileChain
  import opened FileSteps
  import opened FileWrite
  import opened FileRead
  import opened DirChain
  import D = DirInsert
  import opened FsTree
  import opened FsSteps
  import opened FsEvents
  import opened FsOps
  import opened DirMap
  import opened AbstractFs

  /** In the middle of an operation that holds the lock of `a`. */
  ghost predicate Holding(v: Vol, w: World, a: Inum)
    reads v
  {
    v.disk == w.d && v.role == w.role && Sound(w) && v.held == {a}
  }

  ghost predicate Within(v: Vol, w: World, a: Inum)
    reads v
  {
    Holding(v, w, a) && a in w.x.dirs
  }

  lemma ReadyWithin(v: Vol, w: World, a: Inum, f: Inum)
    requires Within(v, w, a) && f in w.x.files
    ensures Ready(v, f, w.x.files[f]) && f !in v.held && f != a
  {
    DirIsSound(w, a);
    FileIsSound(w, f);
    InUse(w.d, w.role, w.x, a);
    Members(w.d, w.role, f, w.x.files[f]);
  }

  /** Create adds at most the blocks it needs. */
  lemma RoomAfter(d: Disk, role: Roles, a: Inum, bs: seq<Inum>, d': Disk, role': Roles, bs': seq<Inum>, e: Entry,
                  n: Node, p: Purpose)
    requires DirOk(d, role, a, bs) && D.Inserted(d, role, a, bs, d', role', bs', e, n, p)
    ensures |role'| <= |role| + 1 + D.Links(d, bs, bs)
  {
    forall j | 0 <= j < |bs| ensures bs[j] in role {
      assert BlockOk(d, role, a, bs, j);
    }
    FewAdded(role, role', bs, bs', e.inum);
  }

  function Added(bs: seq<Inum>, bs': seq<Inum>, ino: Inum): (s: set<Inum>)
    requires |bs| <= |bs'| <= |bs| + 1
    ensures |s| <= 1 + |bs'| - |bs|
  {
    if |bs'| > |bs| then {ino, bs'[|bs|]} else {ino}
  }

  lemma OnlyAdded(role: Roles, role': Roles, bs: seq<Inum>, bs': seq<Inum>, ino: Inum)
    requires |bs| <= |bs'| <= |bs| + 1 && bs'[..|bs|] == bs
    requires forall j :: 0 <= j < |bs| ==> bs[j] in role
    requires forall b :: b in role' && b !in role ==> b == ino || b in bs'
    ensures role'.Keys <= role.Keys + Added(bs, bs', ino)
  {
    forall j | 0 <= j < |bs'| ensures bs'[j] in role || bs'[j] in Added(bs, bs', ino) {
      if j < |bs| {
        assert bs'[..|bs|][j] == bs[j];
      }
    }
  }

  lemma FewAdded(role: Roles, role': Roles, bs: seq<Inum>, bs': seq<Inum>, ino: Inum)
    requires |bs| <= |bs'| <= |bs| + 1 && bs'[..|bs|] == bs
    requires forall j :: 0 <= j < |bs| ==> bs[j] in role
    requires forall b :: b in role' && b !in role ==> b == ino || b in bs'
    ensures |role'| <= |role| + 1 + |bs'| - |bs|
  {
    OnlyAdded(role, role', bs, bs', ino);
    SizeUpTo(role'.Keys, role.Keys + Added(bs, bs', ino));
    KeysSize(role);
    KeysSize(role');
  }

  lemma KeysSize(role: Roles)
    ensures |role| == |role.Keys|
  {
  }

  lemma SizeUpTo(s: set<Inum>, t: set<Inum>)
    requires s <= t
    ensures |s| <= |t|
  {
    if s != {} {
      var b :| b in s;
      SizeUpTo(s - {b}, t - {b});
    }
  }

  const ONE_INODE := FileRep([0], [])

  /** Blocks symlink may allocate. */
  ghost function SymlinkNeeds(w: World, a: Inum, name: string, link: seq<byte>): nat
    requires a in w.x.dirs
  {
    var es := D.Seen(w.d, w.x.dirs[a]);
    var f := Find(es, name);
    if Named(es, name) && f in w.x.files then Needed(w.x.files[f], LastBlock(0, |link|))
    else 1 + D.Links(w.d, w.x.dirs[a], w.x.dirs[a]) + Needed(ONE_INODE, LastBlock(0, |link|))
  }

  /** What the link will be laid over: nothing if the name is new. */
  ghost function Under(w: World, a: Inum, name: string): seq<byte>
    requires a in w.x.dirs
  {
    var f := Find(EntriesOf(w, a), name);
    if Named(D.Seen(w.d, w.x.dirs[a]), name) && f in w.x.content then w.x.content[f] else []
  }

  /** The name, if create sees it, leads to a file. */
  ghost predicate NotADir(w: World, a: Inum, name: string)
    requires a in w.x.dirs
  {
    Named(D.Seen(w.d, w.x.dirs[a]), name) ==> Find(EntriesOf(w, a), name) in w.x.files
  }

  lemma SeenFirst(w: World, a: Inum, name: string)
    requires a in w.x.dirs && Named(D.Seen(w.d, w.x.dirs[a]), name)
    ensures Find(EntriesOf(w, a), name) == Find(D.Seen(w.d, w.x.dirs[a]), name)
  {
    D.SeenAndUnseen(w.d, w.x.dirs[a]);
    FindIn(D.Seen(w.d, w.x.dirs[a]), D.Unseen(w.d, w.x.dirs[a]), name);
  }

  /** What symlink needs of the directory, if it is one. */
  ghost predicate MayLink(w: World, a: Inum, name: string, link: seq<byte>) {
    && IsDirOrFree(w, a) && |name| < NAME_LEN
    && (a in w.x.dirs ==> NotADir(w, a, name) && Room(w.role, SymlinkNeeds(w, a, name, link)))
  }

  /** The worlds symlink goes through, the directory's blocks after the first step and the
      file's after the second. */
  datatype Trace = Trace(w1: World, w2: World, bs: seq<Inum>, r: FileRep)

  /** The first step: the name is found or entered. */
  ghost predicate Opened(w: World, w1: World, a: Inum, name: string, ino: Inum, now: nat, bs: seq<Inum>) {
    && a in w.x.dirs
    && if Named(D.Seen(w.d, w.x.dirs[a]), name)
       then Applies(Stamped(a), w, w1) && ino == Find(EntriesOf(w, a), name)
       else Applies(Created(a, Entry(name, ino), now, bs), w, w1)
  }

  /** Symlink is three events: the name, the bytes, the mark. */
  ghost predicate Linked(w: World, w': World, a: Inum, name: string, ino: Inum, link: seq<byte>, now: nat, t: Trace) {
    && Opened(w, t.w1, a, name, ino, now, t.bs)
    && Applies(Written(ino, 0, link, t.r), t.w1, t.w2)
    && Applies(HeaderChanged(ino), t.w2, w')
    && HeaderOf(w'.d, ino) == HeaderOf(t.w2.d, ino).(mode := 2)
  }

  /** The file of that name, new or not. */
  method OpenFile(v: Vol, a: Inum, name: string, now: nat, ghost w: World, ghost link: seq<byte>)
    returns (ok: bool, ino: Inum, ghost w': World, ghost bs': seq<Inum>)
    requires Holding(v, w, a) && MayLink(w, a, name, link)
    modifies v
    ensures Holding(v, w', a) && v.stray == old(v.stray)
    ensures ok <==> a in w.role
    ensures !ok ==> w' == w
    ensures ok ==> Opened(w, w', a, name, ino, now, bs') && a in w'.x.dirs && ino in w'.x.files && ino in w'.x.content
    ensures ok ==> w'.x.content[ino] == Under(w, a, name)
    ensures ok ==> Room(w'.role, Needed(w'.x.files[ino], LastBlock(0, |link|)))
    ensures ok && !Named(D.Seen(w.d, w.x.dirs[a]), name) ==> ino !in w.role
  {
    ghost var bs := if a in w.x.dirs then w.x.dirs[a] else [];
    if a in w.x.dirs {
      DirIsSound(w, a);
      NeedsOf(w, a, name, link);
    }
    w' := w;
    ok, ino, bs' := D.InnerCreate(v, a, name, now, bs);
    if ok {
      DirModeStays(w.d, w.role, a, bs, v.disk, v.role, bs');
      if Named(D.Seen(w.d, bs), name) {
        w' := World(v.disk, v.role, w.x);
        OpenedOld(w, w', a, name, link);
      } else {
        w' := World(v.disk, v.role, WithNew(w.x, a, bs', ino, NewFile));
        OpenedNew(w, w', a, Entry(name, ino), now, bs', link);
      }
    }
  }

  lemma NeedsOf(w: World, a: Inum, name: string, link: seq<byte>)
    requires a in w.x.dirs && NotADir(w, a, name)
    ensures D.CreateNeeds(w.d, w.x.dirs[a], name) <= SymlinkNeeds(w, a, name, link)
  {
    if Named(D.Seen(w.d, w.x.dirs[a]), name) {
      SeenFirst(w, a, name);
    }
  }

  lemma OpenedOld(w: World, w': World, a: Inum, name: string, link: seq<byte>)
    requires Sound(w) && a in w.x.dirs && NotADir(w, a, name) && Named(D.Seen(w.d, w.x.dirs[a]), name)
    requires Applies(Stamped(a), w, w')
    ensures var f := Find(EntriesOf(w, a), name);
      && Sound(w') && f in w'.x.files && f in w'.x.content && w'.x.content[f] == Under(w, a, name)
      && SymlinkNeeds(w, a, name, link) == Needed(w'.x.files[f], LastBlock(0, |link|))
  {
    SeenFirst(w, a, name);
    EventKeeps(Stamped(a), w, w');
    FileIsSound(w, Find(EntriesOf(w, a), name));
  }

  lemma OpenedNew(w: World, w': World, a: Inum, e: Entry, now: nat, bs': seq<Inum>, link: seq<byte>)
    requires Sound(w) && Applies(Created(a, e, now, bs'), w, w')
    requires Room(w.role, SymlinkNeeds(w, a, e.name, link))
    ensures Sound(w') && a in w'.x.dirs && e.inum in w'.x.files && e.inum in w'.x.content && e.inum !in w.role
    ensures w'.x.content[e.inum] == Under(w, a, e.name)
    ensures Room(w'.role, Needed(w'.x.files[e.inum], LastBlock(0, |link|)))
  {
    CreatedKeeps(w, w', a, e, now, bs');
    DirIsSound(w, a);
    RoomAfter(w.d, w.role, a, w.x.dirs[a], w'.d, w'.role, bs', e, D.FileBlock(now), NewFile);
  }

  /** Writes the link and marks the inode. */
  method StoreLink(v: Vol, a: Inum, f: Inum, link: seq<byte>, now: nat, ghost w: World)
    returns (ghost w2: World, ghost w': World, ghost r: FileRep)
    requires Within(v, w, a) && f in w.x.files && f in w.x.content
    requires Room(w.role, Needed(w.x.files[f], LastBlock(0, |link|)))
    modifies v
    ensures Within(v, w', a) && v.stray == old(v.stray) + {f}
    ensures Applies(Written(f, 0, link, r), w, w2) && Applies(HeaderChanged(f), w2, w')
    ensures HeaderOf(w'.d, f) == HeaderOf(w2.d, f).(mode := 2)
    ensures f in w'.x.files && f in w'.x.content && w'.x.content[f] == Overlay(w.x.content[f], 0, link)
  {
    ReadyWithin(v, w, a, f);
    FileIsSound(w, f);
    DirIsSound(w, a);
    var ok;
    ok, r := InnerWrite(v, f, link, 0, now, w.x.files[f], w.x.content[f]);
    FileMode(w.d, w.role, f, w.x.files[f]);
    FileMode(v.disk, v.role, f, r);
    w2 := World(v.disk, v.role, WithFile(w.x, f, r, Overlay(w.x.content[f], 0, link)));
    EventKeeps(Written(f, 0, link, r), w, w2);
    w' := MarkLink(v, a, f, w2);
  }

  method MarkLink(v: Vol, a: Inum, f: Inum, ghost w: World) returns (ghost w': World)
    requires Within(v, w, a) && f in w.x.files && f in w.x.content
    modifies v
    ensures Within(v, w', a) && v.stray == old(v.stray) && w'.x == w.x
    ensures Applies(HeaderChanged(f), w, w') && HeaderOf(w'.d, f) == HeaderOf(w.d, f).(mode := 2)
  {
    ReadyWithin(v, w, a, f);
    FileIsSound(w, f);
    DirIsSound(w, a);
    BitmapOf(f);
    var ok, n := v.SafeGet(f, a);
    var node := AsFile(n).(mode := 2);
    ok := v.SafePut(f, FileNode(node), a);
    w' := World(v.disk, v.role, w.x);
    HeaderKeeps(w, f, node, v.disk);
  }

  lemma HeaderKeeps(w: World, f: Inum, n: FileInode, d': Disk)
    requires Sound(w) && f in w.x.files && At(w.d, f).FileNode? && d' == w.d[f := FileNode(n)]
    requires n.slots == At(w.d, f).file.slots && n.next == At(w.d, f).file.next && n.size == At(w.d, f).file.size
    requires n.mode == At(w.d, f).file.mode || n.mode == 2
    ensures var w' := World(d', w.role, w.x); Applies(HeaderChanged(f), w, w') && Sound(w')
  {
    FileIsSound(w, f);
    HeaderContains(w.d, w.role, f, w.x.files[f], w.x.content[f], n);
    OtherBlock(w.d, w.role, f, FileNode(n));
    HeaderGrew(w.d, w.role, f, w.x.files[f], d');
    ReadKeeps(w, World(d', w.role, w.x), f);
  }

  lemma HeaderContains(d: Disk, role: Roles, f: Inum, r: FileRep, c: seq<byte>, n: FileInode)
    requires Contains(d, role, f, r, c)
    requires n.slots == At(d, f).file.slots && n.next == At(d, f).file.next && n.size == At(d, f).file.size
    ensures Contains(d[f := FileNode(n)], role, f, r, c)
  {
    HeaderWritten(d, role, f, r, n);
    var d' := d[f := FileNode(n)];
    assert At(d', f) == FileNode(n) && |c| == n.size;
    forall p | 0 <= p < BSIZE * |r.blocks| ensures ByteAt(d', r, p) == if p < |c| then c[p] else 0 {
      assert ByteAt(d', r, p) == ByteAt(d, r, p);
    }
  }

  lemma HeaderGrew(d: Disk, role: Roles, f: Inum, r: FileRep, d': Disk)
    requires ChainOk(d, role, f, r) && forall b :: b != f ==> At(d', b) == At(d, b)
    ensures Grew(d, role, d', role, f)
  {
    assert InodeOk(d, role, f, r, 0);
  }

  lemma OverNothing(link: seq<byte>)
    ensures Overlay([], 0, link) == link
  {
  }

  // ----- what symlink means -----

  /** The entries of a directory when the first event is over. */
  lemma OpenedEntries(w: World, w1: World, a: Inum, name: string, ino: Inum, now: nat, bs: seq<Inum>, g: Inum)
    requires Sound(w) && Opened(w, w1, a, name, ino, now, bs) && g in w.x.dirs
    ensures Sound(w1) && g in w1.x.dirs
    ensures EntriesOf(w1, g) == if g == a && !Named(D.Seen(w.d, w.x.dirs[a]), name)
                                then D.Seen(w.d, w.x.dirs[a]) + [Entry(name, ino)] + D.Unseen(w.d, w.x.dirs[a])
                                else EntriesOf(w, g)
  {
    if Named(D.Seen(w.d, w.x.dirs[a]), name) {
      EventKeeps(Stamped(a), w, w1);
      OtherEntries(Stamped(a), w, w1, g);
    } else {
      CreatedKeeps(w, w1, a, Entry(name, ino), now, bs);
      if g != a {
        OtherEntries(Created(a, Entry(name, ino), now, bs), w, w1, g);
      }
    }
  }

  /** The directory has the entry, the other directories are as they were. */
  lemma LinkedEntries(w: World, w': World, a: Inum, name: string, ino: Inum, link: seq<byte>, now: nat, t: Trace, g: Inum)
    requires Sound(w) && Linked(w, w', a, name, ino, link, now, t) && g in w.x.dirs
    ensures Sound(w') && g in w'.x.dirs
    ensures EntriesOf(w', g) == if g == a && !Named(D.Seen(w.d, w.x.dirs[a]), name)
                                then D.Seen(w.d, w.x.dirs[a]) + [Entry(name, ino)] + D.Unseen(w.d, w.x.dirs[a])
                                else EntriesOf(w, g)
  {
    OpenedEntries(w, t.w1, a, name, ino, now, t.bs, g);
    EventKeeps(Written(ino, 0, link, t.r), t.w1, t.w2);
    OtherEntries(Written(ino, 0, link, t.r), t.w1, t.w2, g);
    EventKeeps(HeaderChanged(ino), t.w2, w');
    OtherEntries(HeaderChanged(ino), t.w2, w', g);
  }

  /** The name leads to the link. */
  lemma LinkedBinds(w: World, w': World, a: Inum, name: string, ino: Inum, link: seq<byte>, now: nat, t: Trace)
    requires Sound(w) && Linked(w, w', a, name, ino, link, now, t)
    ensures Sound(w') && a in w'.x.dirs
    ensures Named(EntriesOf(w', a), name) && Find(EntriesOf(w', a), name) == ino
  {
    LinkedEntries(w, w', a, name, ino, link, now, t, a);
    var xs, ys := D.Seen(w.d, w.x.dirs[a]), D.Unseen(w.d, w.x.dirs[a]);
    if Named(xs, name) {
      D.SeenAndUnseen(w.d, w.x.dirs[a]);
      NamedIn(xs, ys, name);
    } else {
      FindAround(xs, Entry(name, ino), ys, name);
    }
  }

  /** No other file changes, and no directory comes or goes. */
  ghost predicate OthersKept(w: World, w': World, ino: Inum) {
    && w'.x.dirs.Keys == w.x.dirs.Keys && w'.x.content.Keys == w.x.content.Keys + {ino}
    && forall g :: g in w.x.content && g != ino ==> w'.x.content[g] == w.x.content[g]
  }

  lemma OpenedFiles(w: World, w1: World, a: Inum, name: string, ino: Inum, now: nat, bs: seq<Inum>)
    requires Opened(w, w1, a, name, ino, now, bs)
    ensures w1.x.dirs.Keys == w.x.dirs.Keys
    ensures w1.x.content == if Named(D.Seen(w.d, w.x.dirs[a]), name) then w.x.content else w.x.content[ino := []]
  {
  }

  lemma StoredFiles(w1: World, w2: World, w': World, ino: Inum, link: seq<byte>, r: FileRep)
    requires Applies(Written(ino, 0, link, r), w1, w2) && Applies(HeaderChanged(ino), w2, w')
    ensures w'.x.dirs == w1.x.dirs && ino in w1.x.content
    ensures w'.x.content == w1.x.content[ino := Overlay(w1.x.content[ino], 0, link)]
  {
  }

  lemma LinkedOthers(w: World, w': World, a: Inum, name: string, ino: Inum, link: seq<byte>, now: nat, t: Trace)
    requires Linked(w, w', a, name, ino, link, now, t)
    ensures OthersKept(w, w', ino)
  {
    OpenedFiles(w, t.w1, a, name, ino, now, t.bs);
    StoredFiles(t.w1, t.w2, w', ino, link, t.r);
    OnlyOne(w.x.content, t.w1.x.content, w'.x.content, ino);
  }

  lemma OnlyOne(c: map<Inum, seq<byte>>, c1: map<Inum, seq<byte>>, c': map<Inum, seq<byte>>, ino: Inum)
    requires (c1 == c || c1 == c[ino := []]) && ino in c1 && ino in c' && c' == c1[ino := c'[ino]]
    ensures c'.Keys == c.Keys + {ino} && forall g :: g in c && g != ino ==> c'[g] == c[g]
  {
  }

  lemma StoredMeans(w1: World, w2: World, w': World, ino: Inum, link: seq<byte>, r: FileRep)
    requires Sound(w1) && NamesOk(w1) && Applies(Written(ino, 0, link, r), w1, w2) && Applies(HeaderChanged(ino), w2, w')
    ensures NamesOk(w') && AbsOf(w') == Meaning(Written(ino, 0, link, r), AbsOf(w1))
  {
    Refines(Written(ino, 0, link, r), w1, w2);
    EventKeeps(Written(ino, 0, link, r), w1, w2);
    Refines(HeaderChanged(ino), w2, w');
  }

  /** The meaning of the three events together. */
  lemma MeaningOfLink(s: Abs, a: Inum, e: Entry, now: nat, bs: seq<Inum>, link: seq<byte>, r: FileRep)
    requires a in s.dirs
    ensures Meaning(Written(e.inum, 0, link, r), Meaning(Created(a, e, now, bs), s))
            == Abs(s.dirs[a := Bind(s.dirs[a], e)], s.files[e.inum := link])
  {
    OverNothing(link);
    assert s.files[e.inum := []][e.inum := link] == s.files[e.inum := link];
  }

  /** On maps and byte strings: one new binding, to a file that holds the link. */
  lemma LinkedMeans(w: World, w': World, a: Inum, name: string, ino: Inum, link: seq<byte>, now: nat, t: Trace)
    requires Sound(w) && NamesOk(w) && Linked(w, w', a, name, ino, link, now, t) && !Named(EntriesOf(w, a), name)
    ensures NamesOk(w')
    ensures a in AbsOf(w).dirs
    ensures AbsOf(w') == Abs(AbsOf(w).dirs[a := Bind(AbsOf(w).dirs[a], Entry(name, ino))], AbsOf(w).files[ino := link])
  {
    D.SeenAndUnseen(w.d, w.x.dirs[a]);
    NamedIn(D.Seen(w.d, w.x.dirs[a]), D.Unseen(w.d, w.x.dirs[a]), name);
    var ev := Created(a, Entry(name, ino), now, t.bs);
    Refines(ev, w, t.w1);
    EventKeeps(ev, w, t.w1);
    StoredMeans(t.w1, t.w2, w', ino, link, t.r);
    MeaningOfLink(AbsOf(w), a, Entry(name, ino), now, t.bs, link, t.r);
  }

  /** `symlink`: IOERR if the directory is not in use; else the name leads to a file that
      holds the link, laid over what it held, and is marked as a link; all other files
      and entries stay. The new inode is touched without its lock. */
  method Symlink(v: Vol, a: Inum, name: string, link: seq<byte>, now: nat, ghost w: World)
    returns (ok: bool, ino: Inum, ghost w': World, ghost t: Trace)
    requires Idle(v, w) && MayLink(w, a, name, link)
    modifies v
    ensures Idle(v, w') && v.stray == if ok then old(v.stray) + {ino} else old(v.stray)
    ensures ok <==> a in w.role
    ensures !ok ==> w' == w
    ensures ok ==> Linked(w, w', a, name, ino, link, now, t) && OthersKept(w, w', ino)
    ensures ok ==> a in w'.x.dirs && Find(EntriesOf(w', a), name) == ino
    ensures ok ==> ino in w'.x.content && w'.x.content[ino] == Overlay(Under(w, a, name), 0, link)
    ensures ok && !Named(D.Seen(w.d, w.x.dirs[a]), name) ==> ino !in w.role && w'.x.content[ino] == link
  {
    t := Trace(w, w, [], FileRep([], []));
    v.Acquire(a);
    ghost var bs;
    ok, ino, w', bs := OpenFile(v, a, name, now, w, link);
    if ok {
      ghost var w1 := w';
      ghost var w2, r;
      w2, w', r := StoreLink(v, a, ino, link, now, w1);
      t := Trace(w1, w2, bs, r);
      LinkedBinds(w, w', a, name, ino, link, now, t);
      LinkedOthers(w, w', a, name, ino, link, now, t);
    }
    v.Release(a);
    OverNothing(link);
  }

  /** `readlink`: NOENT if the inode is not in use; else the whole file. */
  method Readlink(v: Vol, f: Inum, now: nat, ghost w: World) returns (ok: bool, link: seq<byte>, ghost w': World)
    requires Idle(v, w) && IsFileOrFree(w, f)
    modifies v
    ensures Idle(v, w') && v.stray == old(v.stray) && w'.x == w.x
    ensures ok <==> f in w.role
    ensures ok ==> f in w.x.content && link == w.x.content[f]
  {
    link, w' := [], w;
    ghost var r, c := FileRep([], []), [];
    if f in w.x.files {
      FileIsSound(w, f);
      r, c := w.x.files[f], w.x.content[f];
    }
    BitmapOf(f);
    v.Acquire(f);
    var n;
    ok, n := v.SafeGet(f, f);
    if ok {
      var read;
      read, link := InnerRead(v, f, AsFile(n).size, 0, now, r, c);
      assert Slice(c, 0, |c|) == c;
      w' := World(v.disk, v.role, w.x);
      EventKeeps(HeaderChanged(f), w, w');
    }
    v.Release(f);
  }

  /** Symlink under a name create does not see, lookup of the name, readlink of what it
      returns: the link. */
  method LinkRoundTrip(v: Vol, a: Inum, name: string, link: seq<byte>, now: nat, ghost w: World) returns (back: seq<byte>)
    requires Idle(v, w) && a in w.x.dirs && MayLink(w, a, name, link) && !Named(D.Seen(w.d, w.x.dirs[a]), name)
    modifies v
    ensures back == link && v.held == {}
  {
    DirIsSound(w, a);
    var ok, ino;
    ghost var w1, t;
    ok, ino, w1, t := Symlink(v, a, name, link, now, w);
    DirIsSound(w1, a);
    FileOfContent(w1, ino);
    ghost var w2, w3;
    ino, w2 := FsOps.Lookup(v, a, name, now, w1);
    FileIsSound(w2, ino);
    ok, back, w3 := Readlink(v, ino, now, w2);
  }

  lemma FileOfContent(w: World, f: Inum)
    requires Sound(w) && f in w.x.content
    ensures f in w.x.files
  {
    assert FileHere(w.d, w.role, w.x, f);
  }
}
