/** The mode on the disk tells files, links and directories apart. */
module FsModes {
  import opened Volume
  import opened FsTree
  import opened FsEvents
  import opened Formatting
  import opened FsRuns
  import FsOps

  /** Files have mode 1 and links mode 2, directories mode 0. */
  ghost predicate ModesOk(w: World) {
    && (forall f :: f in w.x.files ==> ModeOf(At(w.d, f)) == 1 || ModeOf(At(w.d, f)) == 2)
    && (forall a :: a in w.x.dirs ==> ModeOf(At(w.d, a)) == 0)
  }

  /** Other first blocks stay as they are. */
  lemma OthersStay(ev: Event, w: World, w': World, o: Inum)
    requires Sound(w) && Applies(ev, w, w') && o != Target(ev) && (o in w.x.files || o in w.x.dirs)
    requires o in w'.x.files || o in w'.x.dirs
    ensures At(w'.d, o) == At(w.d, o)
  {
    InUse(w.d, w.role, w.x, o);
  }

  lemma EventModes(ev: Event, w: World, w': World)
    requires Sound(w) && Applies(ev, w, w') && ModesOk(w)
    ensures ModesOk(w')
  {
    forall o | o in w'.x.files || o in w'.x.dirs
      ensures o in w'.x.files ==> ModeOf(At(w'.d, o)) == 1 || ModeOf(At(w'.d, o)) == 2
      ensures o in w'.x.dirs ==> ModeOf(At(w'.d, o)) == 0
    {
      ModeAfter(ev, w, w', o);
    }
  }

  lemma ModeAfter(ev: Event, w: World, w': World, o: Inum)
    requires Sound(w) && Applies(ev, w, w') && ModesOk(w) && (o in w'.x.files || o in w'.x.dirs)
    ensures o in w'.x.files ==> ModeOf(At(w'.d, o)) == 1 || ModeOf(At(w'.d, o)) == 2
    ensures o in w'.x.dirs ==> ModeOf(At(w'.d, o)) == 0
  {
    InUse(w.d, w.role, w.x, o);
    InUse(w.d, w.role, w.x, Target(ev));
    if o in w.x.files || o in w.x.dirs {
      if o != Target(ev) {
        OthersStay(ev, w, w', o);
      }
    }
  }

  lemma FirstModes(w: World)
    requires Formatted(w)
    ensures ModesOk(w)
  {
  }

  lemma {:induction false} ModesAlong(ws: seq<World>, evs: seq<Event>, i: nat)
    requires Run(ws, evs) && i < |ws|
    ensures ModesOk(ws[i])
  {
    if i == 0 {
      FirstModes(ws[0]);
    } else {
      ModesAlong(ws, evs, i - 1);
      RunSound(ws, evs, i - 1);
      assert Applies(evs[i - 1], ws[i - 1], ws[i - 1 + 1]);
      EventModes(evs[i - 1], ws[i - 1], ws[i]);
    }
  }

  /** In every run the first block of a file has mode 1 or 2 and that of a directory has
      mode 0. */
  lemma RunModes(ws: seq<World>, evs: seq<Event>, i: nat)
    requires Run(ws, evs) && i < |ws|
    ensures forall f :: f in ws[i].x.files ==> ModeOf(At(ws[i].d, f)) == 1 || ModeOf(At(ws[i].d, f)) == 2
    ensures forall a :: a in ws[i].x.dirs ==> ModeOf(At(ws[i].d, a)) == 0
  {
    ModesAlong(ws, evs, i);
  }

  /** A block that a client may ask about: free, or the first of a file or directory. */
  ghost predicate MayAsk(w: World, i: Inum) {
    i < CAPACITY && !IsBitmap(i) && (i in w.role ==> i in w.x.files || i in w.x.dirs)
  }

  method ReadMode(v: Vol, i: Inum) returns (ok: bool, mode: nat)
    requires v.Valid() && v.held == {} && i < CAPACITY && !IsBitmap(i)
    modifies v
    ensures v.held == {} && v.stray == old(v.stray) && v.disk == old(v.disk) && v.role == old(v.role)
    ensures ok <==> i in v.role
    ensures ok ==> mode == ModeOf(At(v.disk, i))
  {
    BitmapOf(i);
    v.Acquire(i);
    var n;
    ok, n := v.SafeGet(i, i);
    mode := ModeOf(n);
    v.Release(i);
  }

  /** `isfile`: yes of files that are not links and of nothing else. */
  method IsFile(v: Vol, i: Inum, ghost w: World) returns (ret: bool)
    requires FsOps.Idle(v, w) && ModesOk(w) && MayAsk(w, i)
    modifies v
    ensures FsOps.Idle(v, w) && v.stray == old(v.stray)
    ensures ret <==> i in w.x.files && ModeOf(At(w.d, i)) != 2
  {
    InUse(w.d, w.role, w.x, i);
    var ok, mode := ReadMode(v, i);
    ret := ok && mode == 1;
  }

  /** `isdir`: yes of directories and of nothing else. */
  method IsDir(v: Vol, i: Inum, ghost w: World) returns (ret: bool)
    requires FsOps.Idle(v, w) && ModesOk(w) && MayAsk(w, i)
    modifies v
    ensures FsOps.Idle(v, w) && v.stray == old(v.stray)
    ensures ret <==> i in w.x.dirs
  {
    InUse(w.d, w.role, w.x, i);
    var ok, mode := ReadMode(v, i);
    ret := ok && mode == 0;
  }
}
