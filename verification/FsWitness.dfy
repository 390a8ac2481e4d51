/** Create can enter a name a second time. */
module FsWitness {
  import opened Blocks
  import opened Bits
  import opened Volume
  import opened FileSteps
  import opened DirChain
  import opened DirOps
  import opened DirInsert
  import opened FsTree
  import opened FsEvents
  import opened Formatting
  import opened FsRuns
  import opened Reachability
  import opened FsPossible
  import opened AbstractFs

  // ----- a formatted store -----

  lemma {:induction false} FirstBuf(end: nat) returns (buf: Block)
    requires BITMAP_BEGIN <= end <= BITMAP_END + 1
    ensures forall k :: 0 <= k < BITS ==> (BitAt(buf, k) <==> FirstBit(k, end))
  {
    if end == BITMAP_BEGIN {
      buf := SetAt(SetAt(ZERO, 0), 1);
      forall k | 0 <= k < BITS ensures BitAt(buf, k) <==> FirstBit(k, end) {
        ZeroHasNone(k);
        AfterSet(ZERO, 0, k);
        AfterSet(SetAt(ZERO, 0), 1, k);
      }
    } else {
      var before := FirstBuf(end - 1);
      buf := SetAt(before, end - 1);
      forall k | 0 <= k < BITS ensures BitAt(buf, k) <==> FirstBit(k, end) {
        AfterSet(before, end - 1, k);
      }
    }
  }

  /** The constructor on any store. */
  lemma Rewriting(d: Disk) returns (d': Disk)
    ensures Rewrote(d, d')
  {
    var buf := FirstBuf(BITMAP_END + 1);
    d' := d[ROOT := BLANK][BITMAP_END := BLANK][BITMAP_BEGIN := Raw(buf)];
    assert At(d', BITMAP_BEGIN) == Raw(buf);
  }

  lemma First() returns (w: World)
    ensures Formatted(w)
  {
    var none: Disk := map[];
    var d := Rewriting(none);
    forall b: Inum | b < CAPACITY && Skipped(b) ensures !Used(none, b) {
      BitmapOf(b);
      ZeroHasNone(b % BITS);
    }
    FormattedWhen(none, d);
    w := World(d, FirstRoles(), EMPTY_REP);
  }

  lemma {:induction false} UpTo(s: set<Inum>, n: nat)
    requires forall b :: b in s ==> b < n
    ensures |s| <= n
  {
    if n > 0 {
      UpTo(s - {n - 1}, n - 1);
    }
  }

  lemma FirstSize()
    ensures |FirstRoles()| <= BITMAP_END + 1
  {
    UpTo(FirstRoles().Keys, BITMAP_END + 1);
    assert |FirstRoles()| == |FirstRoles().Keys|;
  }

  // ----- the run -----

  ghost predicate Reached(w: World) {
    exists ws, evs :: Run(ws, evs) && ws[|evs|] == w
  }

  lemma Starts(w: World)
    requires Formatted(w)
    ensures Reached(w)
  {
    assert Run([w], []);
  }

  lemma Goes(w: World, ev: Event, w': World)
    requires Reached(w) && Applies(ev, w, w')
    ensures Reached(w')
  {
    var ws, evs :| Run(ws, evs) && ws[|evs|] == w;
    var ws', evs' := ws + [w'], evs + [ev];
    forall i | 0 <= i < |evs'| ensures Applies(evs'[i], ws'[i], ws'[i + 1]) {
      if i < |evs| {
        assert Applies(evs[i], ws[i], ws[i + 1]);
      }
    }
    assert Run(ws', evs');
  }

  ghost predicate Names(es: seq<Entry>, ns: seq<string>) {
    |es| == |ns| && forall i :: 0 <= i < |es| ==> es[i].name == ns[i]
  }

  /** The names of the root's first block and of its second, if there is one. */
  ghost predicate Shape(w: World, ns: seq<string>, ms: seq<string>) {
    && Sound(w) && ROOT in w.x.dirs && Names(Ent(w.d, ROOT), ns)
    && var bs := w.x.dirs[ROOT];
       if ms == [] then bs == [ROOT] else |bs| == 2 && bs[0] == ROOT && Names(Ent(w.d, bs[1]), ms)
  }

  lemma ShapeNames(w: World, ns: seq<string>, ms: seq<string>)
    requires Shape(w, ns, ms)
    ensures Names(EntriesOf(w, ROOT), ns + ms)
  {
    var bs := w.x.dirs[ROOT];
    AllTo(w.d, bs, 0);
    assert bs[..0] == [] && bs[..|bs|] == bs;
    if ms != [] {
      AllTo(w.d, bs, 1);
    }
  }

  ghost predicate Distinct(ns: seq<string>) {
    forall i, j :: 0 <= i < j < |ns| ==> ns[i] != ns[j]
  }

  lemma NamedWhen(es: seq<Entry>, ns: seq<string>, name: string)
    requires Names(es, ns)
    ensures Named(es, name) <==> name in ns
  {
    if i :| 0 <= i < |ns| && ns[i] == name {
      assert es[i].name == name;
    }
  }

  lemma DistinctWhenNames(es: seq<Entry>, ns: seq<string>)
    requires Names(es, ns) && Distinct(ns)
    ensures NamesDistinct(es)
  {
  }

  /** Create looks at the first block only if it has room. */
  lemma SeesFirst(w: World, ns: seq<string>, ms: seq<string>)
    requires Shape(w, ns, ms) && (ms == [] || |ns| < ENTRIES)
    ensures Names(Seen(w.d, w.x.dirs[ROOT]), ns)
    ensures FirstRoom(w.d, w.x.dirs[ROOT]) == if |ns| < ENTRIES then 0 else 1
  {
    var bs := w.x.dirs[ROOT];
    var t := FirstRoom(w.d, bs);
    assert t > 0 ==> |Ent(w.d, bs[0])| >= ENTRIES;
    AllTo(w.d, bs, 0);
    assert bs[..0] == [];
  }

  /** The first file stays the empty file it is when another is made. */
  lemma FirstKept(w: World, w': World, e: Entry, now: nat, bs: seq<Inum>)
    requires Sound(w) && Applies(Created(ROOT, e, now, bs), w, w') && EmptyFirst(w, ROOT)
    requires Ent(w'.d, ROOT) != [] && Ent(w'.d, ROOT)[0] == Ent(w.d, ROOT)[0]
    ensures EmptyFirst(w', ROOT)
  {
    InUse(w.d, w.role, w.x, Ent(w.d, ROOT)[0].inum);
  }

  /** A name goes into the first block while it has room. */
  lemma Grow(w: World, ns: seq<string>, name: string) returns (w': World, ev: Event)
    requires Shape(w, ns, []) && name !in ns && |ns| < ENTRIES && Room(w.role, 2)
    requires ns == [] || EmptyFirst(w, ROOT)
    ensures Applies(ev, w, w') && Shape(w', ns + [name], []) && EmptyFirst(w', ROOT) && |w'.role| <= |w.role| + 2
  {
    SeesFirst(w, ns, []);
    NamedWhen(Seen(w.d, w.x.dirs[ROOT]), ns, name);
    w', ev := CreateCan(w, ROOT, name, 0);
    assert ev.bs[..1] == [ROOT];
    if ns != [] {
      FirstKept(w, w', ev.e, ev.now, ev.bs);
    }
  }

  /** Then it goes into a second one. */
  lemma Overflow(w: World, ns: seq<string>, name: string) returns (w': World, ev: Event)
    requires Shape(w, ns, []) && name !in ns && |ns| == ENTRIES && Room(w.role, 2) && EmptyFirst(w, ROOT)
    ensures Applies(ev, w, w') && Shape(w', ns, [name]) && EmptyFirst(w', ROOT) && |w'.role| <= |w.role| + 2
  {
    SeesFirst(w, ns, []);
    NamedWhen(Seen(w.d, w.x.dirs[ROOT]), ns, name);
    w', ev := CreateCan(w, ROOT, name, 0);
    assert ev.bs[..1] == [ROOT];
    FirstKept(w, w', ev.e, ev.now, ev.bs);
  }

  const FIVE := ["1", "2", "3", "4", "5"]

  lemma FiveBut()
    ensures Distinct(FIVE) && Distinct(FIVE[1..]) && "a" !in FIVE && "a" !in FIVE[1..]
  {
  }

  lemma Empty() returns (w: World)
    ensures Reached(w) && Shape(w, [], []) && w.role == FirstRoles() && |w.role| <= BITMAP_END + 1
  {
    w := First();
    FormattedIsSound(w);
    FirstSize();
    Starts(w);
  }

  lemma More(w: World, ns: seq<string>, name: string) returns (w': World)
    requires Reached(w) && Shape(w, ns, []) && name !in ns && |ns| < ENTRIES && Room(w.role, 2)
    requires ns == [] || EmptyFirst(w, ROOT)
    ensures Reached(w') && Shape(w', ns + [name], []) && EmptyFirst(w', ROOT) && |w'.role| <= |w.role| + 2
  {
    var ev;
    w', ev := Grow(w, ns, name);
    Goes(w, ev, w');
  }

  /** Up to five names can be made. */
  lemma {:induction false} Filling(ns: seq<string>) returns (w: World)
    requires |ns| <= ENTRIES && Distinct(ns)
    ensures Reached(w) && Shape(w, ns, []) && |w.role| <= BITMAP_END + 1 + 2 * |ns|
    ensures ns != [] ==> EmptyFirst(w, ROOT)
  {
    if ns == [] {
      w := Empty();
    } else {
      var most, last := ns[..|ns| - 1], ns[|ns| - 1];
      var before := Filling(most);
      w := More(before, most, last);
      assert most + [last] == ns;
    }
  }

  /** The first name is unlinked. */
  lemma Shrink(w: World, ns: seq<string>, m: string)
    requires Shape(w, ns, [m]) && EmptyFirst(w, ROOT)
    ensures Shape(WithoutFirstFile(w, ROOT), ns[1..], [m])
    ensures Applies(Gone(ROOT, Ent(w.d, ROOT)[0].name), w, WithoutFirstFile(w, ROOT))
    ensures |WithoutFirstFile(w, ROOT).role| <= |w.role|
  {
    UnlinkCan(w, ROOT);
    UnlinkLeaves(w, ROOT);
  }

  /** Five names fill the first block, "a" goes to the second, and "1" is unlinked. */
  lemma Hiding() returns (w: World)
    ensures Reached(w) && Shape(w, FIVE[1..], ["a"]) && Room(w.role, 2)
  {
    FiveBut();
    var full := Filling(FIVE);
    var two, ev := Overflow(full, FIVE, "a");
    Goes(full, ev, two);
    Shrink(two, FIVE, "a");
    w := WithoutFirstFile(two, ROOT);
    Goes(two, Gone(ROOT, Ent(two.d, ROOT)[0].name), w);
  }

  /** In such a world create of "a" is possible and makes its name double. */
  lemma Doubles(w: World, ns: seq<string>) returns (w': World, ev: Event)
    requires Shape(w, ns, ["a"]) && "a" !in ns && |ns| < ENTRIES && Room(w.role, 2)
    requires Distinct(ns)
    ensures Applies(ev, w, w') && ev.Created? && ev.a == ROOT && ev.e.name == "a" && ROOT in w'.x.dirs
    ensures NamesDistinct(EntriesOf(w, ROOT)) && Named(EntriesOf(w, ROOT), "a") && !NamesDistinct(EntriesOf(w', ROOT))
  {
    SeesFirst(w, ns, ["a"]);
    NamedWhen(Seen(w.d, w.x.dirs[ROOT]), ns, "a");
    w', ev := CreateCan(w, ROOT, "a", 0);
    ShapeNames(w, ns, ["a"]);
    DistinctWhenNames(EntriesOf(w, ROOT), ns + ["a"]);
    assert (ns + ["a"])[|ns|] == "a";
    NamedWhen(EntriesOf(w, ROOT), ns + ["a"], "a");
    NamesAt(w, w', ROOT, ev.e, FileBlock(ev.now), NewFile, ev.bs);
  }

  /** A run can end with a create of "a" in a root that has an "a" already: its names
      were distinct and no longer are. */
  lemma NameCanHide() returns (w: World, ev: Event, w': World)
    ensures Reached(w) && Applies(ev, w, w') && ev.Created? && ev.a == ROOT && ev.e.name == "a"
    ensures ROOT in w.x.dirs && NamesDistinct(EntriesOf(w, ROOT)) && Named(EntriesOf(w, ROOT), "a")
    ensures ROOT in w'.x.dirs && !NamesDistinct(EntriesOf(w', ROOT))
  {
    w := Hiding();
    FiveBut();
    w', ev := Doubles(w, FIVE[1..]);
  }

  lemma OneName(w: World, name: string)
    requires Shape(w, [name], [])
    ensures NamesDistinct(EntriesOf(w, ROOT)) && Named(EntriesOf(w, ROOT), name)
  {
    ShapeNames(w, [name], []);
    NamedWhen(EntriesOf(w, ROOT), [name] + [], name);
  }

  lemma MkdirDoubles(w: World, name: string) returns (w': World, ev: Event)
    requires Shape(w, [name], []) && Room(w.role, 2)
    ensures Applies(ev, w, w') && ev.MadeDir? && ev.a == ROOT && ev.e.name == name
    ensures ROOT in w'.x.dirs && !NamesDistinct(EntriesOf(w', ROOT))
  {
    OneName(w, name);
    w', ev := MkdirCan(w, ROOT, name, 0);
    NamesAt(w, w', ROOT, ev.e, DirBlock(ev.now), NewDir, ev.bs);
  }

  /** Mkdir looks at no name at all: in a reached world with one entry in the root it
      can enter the same name again. */
  lemma MkdirCanDouble() returns (w: World, ev: Event, w': World)
    ensures Reached(w) && Applies(ev, w, w') && ev.MadeDir? && ev.a == ROOT
    ensures ROOT in w.x.dirs && NamesDistinct(EntriesOf(w, ROOT)) && Named(EntriesOf(w, ROOT), ev.e.name)
    ensures ROOT in w'.x.dirs && !NamesDistinct(EntriesOf(w', ROOT))
  {
    w := Filling(["1"]);
    OneName(w, "1");
    w', ev := MkdirDoubles(w, "1");
  }

  // ----- formatting again -----

  /** With a file whose inode is block 4096, described by bitmap block 11, the next client
      to start leaves that bit set and nothing that leads to the block. */
  lemma FormatCanStrand() returns (w: World, d': Disk)
    ensures Reached(w) && Sound(w) && Rewrote(w.d, d') && Used(d', BITS) && !Reach(d', BITS) && !Agrees(d')
  {
    var first := Empty();
    SeesFirst(first, [], []);
    var ev;
    w, ev := CreateAt(first, ROOT, "1", BITS);
    Goes(first, ev, w);
    d' := Rewriting(w.d);
    assert Used(w.d, BITS);
    UsedAfter(w.d, d', BITS);
    ReachedAfter(d', BITS);
    assert !IsReserved(BITS);
  }
}
