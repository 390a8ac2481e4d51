/** The file system as a client thinks of it: directories are maps from names to
    inums, files are byte strings. */
module AbstractFs {
  import opened Blocks
  import opened Volume
  import opened FileChain
  import opened DirChain
  import opened DirInsert
  import opened DirRemove
  import opened DirMap
  import opened FsTree
  import opened FsSteps
  import opened FsUnlink
  import opened FsEvents
  import opened Formatting
  import opened FsRuns

  datatype Abs = Abs(dirs: map<Inum, map<string, Inum>>, files: map<Inum, seq<byte>>)

  ghost function AbsOf(w: World): Abs {
    Abs(map a | a in w.x.dirs :: AsMap(EntriesOf(w, a)), w.x.content)
  }

  function Bind(m: map<string, Inum>, e: Entry): map<string, Inum> {
    m[e.name := e.inum]
  }

  /** What each event means. */
  ghost function Meaning(ev: Event, s: Abs): Abs {
    match ev
    case Stamped(_) => s
    case HeaderChanged(_) => s
    case Created(a, e, _, _) =>
      if a in s.dirs then Abs(s.dirs[a := Bind(s.dirs[a], e)], s.files[e.inum := []]) else s
    case MadeDir(a, e, _, _) =>
      if a in s.dirs then s.(dirs := s.dirs[a := Bind(s.dirs[a], e)][e.inum := map[]]) else s
    case Written(f, off, data, _) =>
      if f in s.files then s.(files := s.files[f := Overlay(s.files[f], off, data)]) else s
    case Gone(a, name) =>
      if a in s.dirs && name in s.dirs[a] then
        Abs(s.dirs[a := s.dirs[a] - {name}], s.files - {s.dirs[a][name]})
      else s
  }

  ghost predicate NamesOk(w: World) {
    forall a :: a in w.x.dirs ==> NamesDistinct(EntriesOf(w, a))
  }

  /** Create and mkdir are asked for a name that is not in the directory. */
  ghost predicate Absent(ev: Event, w: World) {
    match ev
    case Created(a, e, _, _) => a in w.x.dirs && !Named(EntriesOf(w, a), e.name)
    case MadeDir(a, e, _, _) => a in w.x.dirs && !Named(EntriesOf(w, a), e.name)
    case _ => true
  }

  lemma OtherEntriesInsert(w: World, w': World, a: Inum, e: Entry, n: Node, p: Purpose, bs: seq<Inum>, g: Inum)
    requires Sound(w) && a in w.x.dirs && a in w.x.rank && g in w.x.dirs && g != a
    requires Inserted(w.d, w.role, a, w.x.dirs[a], w'.d, w'.role, bs, e, n, p) && w'.x == WithNew(w.x, a, bs, e.inum, p)
    ensures g in w'.x.dirs && EntriesOf(w', g) == EntriesOf(w, g)
  {
    InUse(w.d, w.role, w.x, g);
    OthersAfter(w.d, w.role, w.x, a, w'.d, w'.role, e.inum, g);
  }

  lemma OtherEntriesGone(w: World, w': World, a: Inum, name: string, g: Inum)
    requires Sound(w) && Applies(Gone(a, name), w, w') && g in w.x.dirs && g != a
    ensures g in w'.x.dirs && EntriesOf(w', g) == EntriesOf(w, g)
  {
    NotBoth(w.d, w.role, w.x, g);
    var f := Find(EntriesOf(w, a), name);
    assert Shrunk(w.d, w.role, w'.d, w'.role, a, w.x.files[f]);
    OthersRemain(w.d, w.role, w.x, w'.d, w'.role, a, f, g);
  }

  lemma OtherEntriesSame(ev: Event, w: World, w': World, g: Inum)
    requires Sound(w) && Applies(ev, w, w') && g in w.x.dirs && (ev.Stamped? || ev.HeaderChanged? || ev.Written?)
    ensures g in w'.x.dirs && EntriesOf(w', g) == EntriesOf(w, g)
  {
    match ev
    case Stamped(a) => TimesOthers(w.d, w.role, w.x, a, w'.d, g);
    case HeaderChanged(f) => OtherDir(w.d, w.role, w.x, w'.d, w'.role, f, g);
    case Written(f, _, _, _) => OtherDir(w.d, w.role, w.x, w'.d, w'.role, f, g);
  }

  /** The entries of the directories an event is not about. */
  lemma OtherEntries(ev: Event, w: World, w': World, g: Inum)
    requires Sound(w) && Applies(ev, w, w') && g in w.x.dirs
    requires ev.Created? || ev.MadeDir? || ev.Gone? ==> g != ev.a
    ensures g in w'.x.dirs && EntriesOf(w', g) == EntriesOf(w, g)
  {
    match ev
    case Created(a, e, now, bs) => OtherEntriesInsert(w, w', a, e, FileBlock(now), NewFile, bs, g);
    case MadeDir(a, e, now, bs) => OtherEntriesInsert(w, w', a, e, DirBlock(now), NewDir, bs, g);
    case Gone(a, name) => OtherEntriesGone(w, w', a, name, g);
    case _ => OtherEntriesSame(ev, w, w', g);
  }

  lemma NewEntries(w: World, w': World, a: Inum, e: Entry, now: nat, bs: seq<Inum>)
    requires Sound(w) && Applies(MadeDir(a, e, now, bs), w, w')
    ensures e.inum in w'.x.dirs && EntriesOf(w', e.inum) == [] && e.inum != a && e.inum !in w.x.dirs
  {
    InUse(w.d, w.role, w.x, e.inum);
    NewDirHere(w'.d, w'.role, e.inum, now);
  }

  // ----- names stay distinct -----

  /** Names stay distinct in a directory the event is not about, and after unlink. */
  lemma NamesStay(ev: Event, w: World, w': World, g: Inum)
    requires Sound(w) && Applies(ev, w, w') && NamesOk(w) && g in w'.x.dirs
    requires ev.Created? || ev.MadeDir? ==> g != ev.a
    ensures NamesDistinct(EntriesOf(w', g))
  {
    if ev.Gone? && g == ev.a {
      UnlinkUnbinds(EntriesOf(w, g), ev.name);
    } else if ev.MadeDir? && g == ev.e.inum {
      NewEntries(w, w', ev.a, ev.e, ev.now, ev.bs);
    } else {
      SameDirs(ev, w, w', g);
      OtherEntries(ev, w, w', g);
    }
  }

  lemma SameDirs(ev: Event, w: World, w': World, g: Inum)
    requires Applies(ev, w, w') && g in w'.x.dirs && !(ev.MadeDir? && g == ev.e.inum)
    ensures g in w.x.dirs
  {
  }

  lemma NamesAt(w: World, w': World, a: Inum, e: Entry, n: Node, p: Purpose, bs: seq<Inum>)
    requires a in w.x.dirs && Inserted(w.d, w.role, a, w.x.dirs[a], w'.d, w'.role, bs, e, n, p)
    requires a in w'.x.dirs && w'.x.dirs[a] == bs
    ensures NamesDistinct(EntriesOf(w', a)) <==> NamesDistinct(EntriesOf(w, a)) && !Named(EntriesOf(w, a), e.name)
  {
    StaysDistinct(w.d, w.role, a, w.x.dirs[a], w'.d, w'.role, bs, e, n, p);
  }

  lemma NamesWhenInserted(ev: Event, w: World, w': World)
    requires Sound(w) && Applies(ev, w, w') && NamesOk(w) && (ev.Created? || ev.MadeDir?)
    ensures ev.a in w'.x.dirs && (NamesDistinct(EntriesOf(w', ev.a)) <==> Absent(ev, w))
  {
    if ev.Created? {
      NamesAt(w, w', ev.a, ev.e, FileBlock(ev.now), NewFile, ev.bs);
    } else {
      NewEntries(w, w', ev.a, ev.e, ev.now, ev.bs);
      NamesAt(w, w', ev.a, ev.e, DirBlock(ev.now), NewDir, ev.bs);
    }
  }

  /** Names stay distinct through an event exactly if create or mkdir was for an
      absent name. */
  lemma NamesDistinctWhen(ev: Event, w: World, w': World)
    requires Sound(w) && Applies(ev, w, w') && NamesOk(w)
    ensures NamesOk(w') <==> Absent(ev, w)
  {
    if ev.Created? || ev.MadeDir? {
      NamesWhenInserted(ev, w, w');
    }
    forall g | g in w'.x.dirs && ((ev.Created? || ev.MadeDir?) ==> g != ev.a) ensures NamesDistinct(EntriesOf(w', g)) {
      NamesStay(ev, w, w', g);
    }
  }

  // ----- the refinement -----

  lemma BoundAt(w: World, w': World, a: Inum, e: Entry, n: Node, p: Purpose, bs: seq<Inum>)
    requires a in w.x.dirs && Inserted(w.d, w.role, a, w.x.dirs[a], w'.d, w'.role, bs, e, n, p)
    requires a in w'.x.dirs && w'.x.dirs[a] == bs && !Named(EntriesOf(w, a), e.name)
    ensures AsMap(EntriesOf(w', a)) == AsMap(EntriesOf(w, a))[e.name := e.inum]
  {
    SeenAndUnseen(w.d, w.x.dirs[a]);
    NamedIn(Seen(w.d, w.x.dirs[a]), Unseen(w.d, w.x.dirs[a]), e.name);
    CreateBinds(w.d, w.role, a, w.x.dirs[a], w'.d, w'.role, bs, e, n, p);
  }

  /** One directory has become the map `m`, and the others are as before. */
  lemma OneDirChanged(w: World, w': World, a: Inum, m: map<string, Inum>)
    requires a in w.x.dirs && w'.x.dirs.Keys == w.x.dirs.Keys
    requires forall g :: g in w.x.dirs && g != a ==> EntriesOf(w', g) == EntriesOf(w, g)
    requires AsMap(EntriesOf(w', a)) == m
    ensures AbsOf(w').dirs == AbsOf(w).dirs[a := m]
  {
    MapChanged(AbsOf(w).dirs, AbsOf(w').dirs, a, m);
  }

  lemma MapChanged(d: map<Inum, map<string, Inum>>, d': map<Inum, map<string, Inum>>, a: Inum, m: map<string, Inum>)
    requires a in d && d'.Keys == d.Keys && d'[a] == m && forall g :: g in d && g != a ==> d'[g] == d[g]
    ensures d' == d[a := m]
  {
  }

  lemma MapAdded(d: map<Inum, map<string, Inum>>, d': map<Inum, map<string, Inum>>, a: Inum, m: map<string, Inum>, ino: Inum)
    requires a in d && ino !in d && d'.Keys == d.Keys + {ino}
    requires d'[a] == m && d'[ino] == map[] && forall g :: g in d && g != a ==> d'[g] == d[g]
    ensures d' == d[a := m][ino := map[]]
  {
  }

  lemma DirAdded(w: World, w': World, a: Inum, m: map<string, Inum>, ino: Inum)
    requires a in w.x.dirs && ino !in w.x.dirs && w'.x.dirs.Keys == w.x.dirs.Keys + {ino}
    requires forall g :: g in w.x.dirs && g != a ==> EntriesOf(w', g) == EntriesOf(w, g)
    requires AsMap(EntriesOf(w', a)) == m && EntriesOf(w', ino) == []
    ensures AbsOf(w').dirs == AbsOf(w).dirs[a := m][ino := map[]]
  {
    assert AsMap([]) == map[];
    MapAdded(AbsOf(w).dirs, AbsOf(w').dirs, a, m, ino);
  }

  lemma CreatedMeans(w: World, w': World, a: Inum, e: Entry, now: nat, bs: seq<Inum>)
    requires Sound(w) && Applies(Created(a, e, now, bs), w, w') && !Named(EntriesOf(w, a), e.name)
    ensures AbsOf(w') == Meaning(Created(a, e, now, bs), AbsOf(w))
  {
    BoundAt(w, w', a, e, FileBlock(now), NewFile, bs);
    forall g | g in w.x.dirs && g != a ensures EntriesOf(w', g) == EntriesOf(w, g) {
      OtherEntries(Created(a, e, now, bs), w, w', g);
    }
    OneDirChanged(w, w', a, Bind(AsMap(EntriesOf(w, a)), e));
  }

  lemma MadeDirMeans(w: World, w': World, a: Inum, e: Entry, now: nat, bs: seq<Inum>)
    requires Sound(w) && Applies(MadeDir(a, e, now, bs), w, w') && !Named(EntriesOf(w, a), e.name)
    ensures AbsOf(w') == Meaning(MadeDir(a, e, now, bs), AbsOf(w))
  {
    NewEntries(w, w', a, e, now, bs);
    BoundAt(w, w', a, e, DirBlock(now), NewDir, bs);
    forall g | g in w.x.dirs && g != a ensures EntriesOf(w', g) == EntriesOf(w, g) {
      OtherEntries(MadeDir(a, e, now, bs), w, w', g);
    }
    DirAdded(w, w', a, Bind(AsMap(EntriesOf(w, a)), e), e.inum);
  }

  /** The unlink seen from outside: one directory and one file. */
  lemma GoneShows(w: World, w': World, a: Inum, name: string)
    requires Sound(w) && Applies(Gone(a, name), w, w')
    ensures var f := Find(EntriesOf(w, a), name);
      && f in w.x.files && w'.x.dirs == w.x.dirs && w'.x.content == w.x.content - {f}
      && EntriesOf(w', a) == Without(EntriesOf(w, a), name)
      && forall g :: g in w.x.dirs && g != a ==> EntriesOf(w', g) == EntriesOf(w, g)
  {
    forall g | g in w.x.dirs && g != a ensures EntriesOf(w', g) == EntriesOf(w, g) {
      OtherEntries(Gone(a, name), w, w', g);
    }
  }

  lemma GoneMeans(w: World, w': World, a: Inum, name: string)
    requires Sound(w) && Applies(Gone(a, name), w, w') && NamesOk(w)
    ensures AbsOf(w') == Meaning(Gone(a, name), AbsOf(w))
  {
    var es := EntriesOf(w, a);
    GoneShows(w, w', a, name);
    UnlinkUnbinds(es, name);
    MapIsFind(es, name);
    OneDirChanged(w, w', a, AsMap(es) - {name});
    GoneOnMaps(AbsOf(w), AbsOf(w'), a, name, Find(es, name));
  }

  lemma GoneOnMaps(s: Abs, s': Abs, a: Inum, name: string, f: Inum)
    requires a in s.dirs && name in s.dirs[a] && s.dirs[a][name] == f
    requires s'.dirs == s.dirs[a := s.dirs[a] - {name}] && s'.files == s.files - {f}
    ensures s' == Meaning(Gone(a, name), s)
  {
  }

  lemma SameMeans(ev: Event, w: World, w': World)
    requires Sound(w) && Applies(ev, w, w') && (ev.Stamped? || ev.HeaderChanged? || ev.Written?)
    ensures AbsOf(w') == Meaning(ev, AbsOf(w))
  {
    forall g | g in w.x.dirs ensures g in w'.x.dirs && EntriesOf(w', g) == EntriesOf(w, g) {
      OtherEntries(ev, w, w', g);
    }
    assert AbsOf(w').dirs == AbsOf(w).dirs;
  }

  /** The blocks on the disk refine the maps and byte strings: an event on the one is
      its meaning on the other. */
  lemma Refines(ev: Event, w: World, w': World)
    requires Sound(w) && Applies(ev, w, w') && NamesOk(w) && Absent(ev, w)
    ensures AbsOf(w') == Meaning(ev, AbsOf(w)) && NamesOk(w')
  {
    NamesDistinctWhen(ev, w, w');
    match ev
    case Created(a, e, now, bs) => CreatedMeans(w, w', a, e, now, bs);
    case MadeDir(a, e, now, bs) => MadeDirMeans(w, w', a, e, now, bs);
    case Gone(a, name) => GoneMeans(w, w', a, name);
    case _ => SameMeans(ev, w, w');
  }

  // ----- over runs -----

  const EMPTY := Abs(map[ROOT := map[]], map[])

  ghost function Replay(evs: seq<Event>): Abs {
    if evs == [] then EMPTY else Meaning(evs[|evs| - 1], Replay(evs[..|evs| - 1]))
  }

  lemma FormattedMeans(w: World)
    requires Formatted(w)
    ensures AbsOf(w) == EMPTY && NamesOk(w)
  {
    assert [ROOT][..0] == [];
    assert All(w.d, [ROOT]) == [];
    assert AsMap([]) == map[];
    assert AbsOf(w).dirs == EMPTY.dirs;
  }

  /** In a run whose creates and mkdirs were for absent names, the disk means the
      replay of the events. */
  lemma {:induction false} RunRefines(ws: seq<World>, evs: seq<Event>, n: nat)
    requires Run(ws, evs) && n <= |evs|
    requires forall i :: 0 <= i < n ==> Absent(evs[i], ws[i])
    ensures AbsOf(ws[n]) == Replay(evs[..n]) && NamesOk(ws[n])
  {
    if n == 0 {
      FormattedMeans(ws[0]);
    } else {
      RunRefines(ws, evs, n - 1);
      RunSound(ws, evs, n - 1);
      OneStep(ws, evs, n - 1);
      Refines(evs[n - 1], ws[n - 1], ws[n]);
      ReplayOn(evs, n - 1);
    }
  }

  lemma OneStep(ws: seq<World>, evs: seq<Event>, i: nat)
    requires Run(ws, evs) && i < |evs|
    ensures Applies(evs[i], ws[i], ws[i + 1])
  {
  }

  lemma ReplayOn(evs: seq<Event>, i: nat)
    requires i < |evs|
    ensures Replay(evs[..i + 1]) == Meaning(evs[i], Replay(evs[..i]))
  {
    assert evs[..i + 1][..i] == evs[..i];
  }
}

/** What the operations return, after any run whose creates and mkdirs were for absent
    names, is what the replay of the run says. */
module AbstractOps {
  import opened Blocks
  import opened Volume
  import opened FileRead
  import opened DirChain
  import opened DirMap
  import opened FsTree
  import opened FsEvents
  import FsOps
  import opened FsRuns
  import opened AbstractFs

  /** A run of absent names that has come to where the volume is. */
  ghost predicate Ran(v: Vol, ws: seq<World>, evs: seq<Event>)
    reads v
  {
    && Run(ws, evs) && (forall i :: 0 <= i < |evs| ==> Absent(evs[i], ws[i]))
    && FsOps.Idle(v, ws[|evs|])
  }

  lemma RanMeans(v: Vol, ws: seq<World>, evs: seq<Event>)
    requires Ran(v, ws, evs)
    ensures AbsOf(ws[|evs|]) == Replay(evs) && NamesOk(ws[|evs|])
  {
    RunRefines(ws, evs, |evs|);
    assert evs[..|evs|] == evs;
  }

  method Lookup(v: Vol, a: Inum, name: string, now: nat, ghost ws: seq<World>, ghost evs: seq<Event>) returns (ret: Inum)
    requires Ran(v, ws, evs) && a in ws[|evs|].x.dirs
    modifies v
    ensures var s := Replay(evs); a in s.dirs && ret == if name in s.dirs[a] then s.dirs[a][name] else 0
  {
    ghost var w := ws[|evs|];
    RanMeans(v, ws, evs);
    FsOps.DirIsSound(w, a);
    ghost var w';
    ret, w' := FsOps.Lookup(v, a, name, now, w);
    MapIsFind(EntriesOf(w, a), name);
    if !Named(EntriesOf(w, a), name) {
      FindNone(EntriesOf(w, a), name);
    }
  }

  method Readdir(v: Vol, a: Inum, now: nat, ghost ws: seq<World>, ghost evs: seq<Event>) returns (items: map<Inum, string>)
    requires Ran(v, ws, evs) && a in ws[|evs|].x.dirs
    modifies v
    ensures var s := Replay(evs); a in s.dirs && Inverse(items, s.dirs[a])
  {
    ghost var w := ws[|evs|];
    RanMeans(v, ws, evs);
    FsOps.DirIsSound(w, a);
    assert DirHere(w.d, w.role, w.x, a);
    var ok;
    ghost var w';
    ok, items, w' := FsOps.Readdir(v, a, now, w);
    ReaddirListsMap(EntriesOf(w, a));
  }

  method Read(v: Vol, f: Inum, n: nat, off: nat, now: nat, ghost ws: seq<World>, ghost evs: seq<Event>)
    returns (buf: seq<byte>)
    requires Ran(v, ws, evs) && f in ws[|evs|].x.files
    modifies v
    ensures var s, r := Replay(evs), ws[|evs|].x.files[f];
      f in s.files && (buf == Slice(s.files[f], off, n) <==> ReadIsExact(|s.files[f]|, |r.blocks|, n, off))
  {
    ghost var w := ws[|evs|];
    RanMeans(v, ws, evs);
    FsOps.FileIsSound(w, f);
    var ok;
    ghost var w';
    ok, buf, w' := FsOps.Read(v, f, n, off, now, w);
  }
}
