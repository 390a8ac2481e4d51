/** The constructor of yfs_client: the first state of the file system. */
module Formatting {
  import opened Blocks
  import opened Bits
  import opened Volume
  import opened DirChain
  import opened FsTree
  import opened FsEvents
  import opened Reachability

  const EMPTY_REP := Rep(map[], map[], map[ROOT := [ROOT]], map[], map[ROOT := 0])

  function FirstRoles(): Roles {
    map b | 0 <= b < CAPACITY && (IsReserved(b) || b == ROOT) :: if b == ROOT then Dir(ROOT, 0) else Reserved
  }

  /** An empty root directory, and only the root and the reserved blocks in use. */
  ghost predicate Formatted(w: World) {
    && BitsOk(w.d, w.role) && w.role == FirstRoles() && w.x == EMPTY_REP
    && At(w.d, ROOT) == BLANK
  }

  lemma FormattedIsSound(w: World)
    requires Formatted(w)
    ensures Sound(w)
  {
    assert BlockOk(w.d, w.role, ROOT, [ROOT], 0);
    assert [ROOT][..0] == [];
    assert All(w.d, [ROOT]) == [];
    assert DirHere(w.d, w.role, w.x, ROOT);
  }

  predicate FirstBit(k: nat, end: nat) {
    k == 0 || k == 1 || BITMAP_BEGIN <= k < end
  }

  /** The bits of the first bitmap block. */
  method FirstBitmap() returns (buf: Block)
    ensures forall k :: 0 <= k < BITS ==> (BitAt(buf, k) <==> FirstBit(k, BITMAP_END + 1))
    ensures forall k :: 0 <= k < 4096 ==> (BitAt(buf, k) <==> k == 0 || k == 1 || 10 <= k <= 200)
  {
    buf := SetAt(SetAt(ZERO, 0), 1);
    forall k | 0 <= k < BITS ensures BitAt(buf, k) <==> FirstBit(k, BITMAP_BEGIN) {
      ZeroHasNone(k);
      AfterSet(ZERO, 0, k);
      AfterSet(SetAt(ZERO, 0), 1, k);
    }
    for i := BITMAP_BEGIN to BITMAP_END + 1
      invariant forall k :: 0 <= k < BITS ==> (BitAt(buf, k) <==> FirstBit(k, i))
    {
      forall k | 0 <= k < BITS ensures BitAt(SetAt(buf, i), k) <==> FirstBit(k, i + 1) {
        AfterSet(buf, i, k);
      }
      buf := SetAt(buf, i);
    }
  }

  /** What the constructor leaves on a store that held `d`: it rewrites four blocks. */
  ghost predicate Rewrote(d: Disk, d': Disk) {
    && At(d', ROOT) == BLANK && At(d', BITMAP_END) == BLANK && At(d', BITMAP_BEGIN).Raw?
    && (forall k {:trigger BitAt(At(d', BITMAP_BEGIN).bytes, k)} ::
          0 <= k < BITS ==> (BitAt(At(d', BITMAP_BEGIN).bytes, k) <==> FirstBit(k, BITMAP_END + 1)))
    && (forall b :: b != 0 && b != ROOT && b != BITMAP_BEGIN && b != BITMAP_END ==> At(d', b) == At(d, b))
  }

  /** Blocks described by a bitmap block that the constructor does not write. */
  predicate Skipped(b: Inum) {
    BITMAP_BEGIN < BitmapBlock(b) < BITMAP_END
  }

  /** Afterwards a bit is set for the root and the reserved blocks, and where it was set
      in a bitmap block that is not written. */
  lemma UsedAfter(d: Disk, d': Disk, b: Inum)
    requires Rewrote(d, d') && b < CAPACITY
    ensures Used(d', b) <==> IsReserved(b) || b == ROOT || (Skipped(b) && Used(d, b))
  {
    if b < BITS {
      assert BitAt(At(d', BITMAP_BEGIN).bytes, b) <==> FirstBit(b, BITMAP_END + 1);
    } else if !Skipped(b) {
      BitmapOf(b);
      ZeroHasNone(b % BITS);
    }
  }

  lemma OnlyTheRoot(d: Disk, p: seq<Inum>)
    requires At(d, ROOT) == BLANK && Path(d, p)
    ensures p == [ROOT]
  {
    assert |p| > 1 ==> Points(d, p[0], p[0 + 1]);
  }

  lemma ReachedAfter(d: Disk, b: Inum)
    requires At(d, ROOT) == BLANK
    ensures Reach(d, b) <==> b == ROOT
  {
    assert PathTo(d, [ROOT], ROOT);
    forall p | PathTo(d, p, b) ensures b == ROOT {
      OnlyTheRoot(d, p);
    }
  }

  /** The bitmap agrees with what can be reached. */
  ghost predicate Agrees(d: Disk) {
    forall b: Inum {:trigger Used(d, b)} | b < CAPACITY :: Used(d, b) <==> IsReserved(b) || Reach(d, b)
  }

  ghost predicate NoneSkipped(d: Disk) {
    forall b: Inum {:trigger Used(d, b)} | b < CAPACITY && Skipped(b) :: !Used(d, b)
  }

  /** After the constructor the bitmap agrees with what can be reached if and only if no
      block described by bitmap blocks 11 to 199 was in use before. */
  lemma AgreesWhen(d: Disk, d': Disk)
    requires Rewrote(d, d')
    ensures Agrees(d') <==> NoneSkipped(d)
  {
    forall b: Inum | b < CAPACITY
      ensures Used(d', b) <==> IsReserved(b) || b == ROOT || (Skipped(b) && Used(d, b))
      ensures Reach(d', b) <==> b == ROOT
      ensures Skipped(b) ==> !IsReserved(b) && b != ROOT
    {
      UsedAfter(d, d', b);
      ReachedAfter(d', b);
    }
    if Agrees(d') {
      forall b: Inum | b < CAPACITY && Skipped(b) ensures !Used(d, b) {
        assert Used(d', b) <==> IsReserved(b) || Reach(d', b);
      }
    }
  }

  lemma FormattedWhen(d: Disk, d': Disk)
    requires Rewrote(d, d')
    ensures Formatted(World(d', FirstRoles(), EMPTY_REP)) <==> NoneSkipped(d)
  {
    forall b: Inum | b < CAPACITY
      ensures Used(d', b) <==> IsReserved(b) || b == ROOT || (Skipped(b) && Used(d, b))
      ensures Skipped(b) ==> b !in FirstRoles()
    {
      UsedAfter(d, d', b);
    }
    if Formatted(World(d', FirstRoles(), EMPTY_REP)) {
      forall b: Inum | b < CAPACITY && Skipped(b) ensures !Used(d, b) {
        assert Used(d', b) <==> b in FirstRoles();
      }
    }
  }

  method PutLocked(v: Vol, b: Inum, n: Node)
    requires v.held == {}
    modifies v`disk, v`held, v`stray
    ensures v.disk == old(v.disk)[b := n] && v.held == {} && v.stray == old(v.stray)
  {
    v.Acquire(b);
    v.EcPut(b, n);
    v.Release(b);
  }

  /** Writes the super block, the first and the last block of the bitmap and the root,
      whatever the store holds. */
  method Format(v: Vol, super: Block) returns (ghost w: World)
    requires v.held == {}
    modifies v
    ensures Rewrote(old(v.disk), v.disk) && w == World(v.disk, v.role, EMPTY_REP)
    ensures Formatted(w) <==> NoneSkipped(old(v.disk))
    ensures Agrees(v.disk) <==> NoneSkipped(old(v.disk))
    ensures v.held == {} && v.stray == old(v.stray)
  {
    PutLocked(v, 0, Raw(super));
    PutLocked(v, BITMAP_END, BLANK);
    var buf := FirstBitmap();
    PutLocked(v, BITMAP_BEGIN, Raw(buf));
    PutLocked(v, ROOT, BLANK);
    AgreesWhen(old(v.disk), v.disk);
    FormattedWhen(old(v.disk), v.disk);
    v.role := FirstRoles();
    w := World(v.disk, v.role, EMPTY_REP);
  }
}

/** Safety over whole runs. */
module FsRuns {
  import opened Volume
  import opened FileChain
  import opened DirChain
  import opened DirRemove
  import opened FsTree
  import opened FsEvents
  import opened Formatting
  import opened Reachability
  import OneWay

  /** The states and events of a run from a formatted store. */
  ghost predicate Run(ws: seq<World>, evs: seq<Event>) {
    && |ws| == |evs| + 1 && Formatted(ws[0])
    && forall i :: 0 <= i < |evs| ==> Applies(evs[i], ws[i], ws[i + 1])
  }

  lemma {:induction false} RunSound(ws: seq<World>, evs: seq<Event>, i: nat)
    requires Run(ws, evs) && i < |ws|
    ensures Sound(ws[i])
  {
    if i == 0 {
      FormattedIsSound(ws[0]);
    } else {
      RunSound(ws, evs, i - 1);
      assert Applies(evs[i - 1], ws[i - 1], ws[i - 1 + 1]);
      EventKeeps(evs[i - 1], ws[i - 1], ws[i]);
    }
  }

  /** At every point of every run the set bits are exactly those of the reserved
      blocks and of the blocks reachable from the root, each reached by one path. */
  lemma Accounted(ws: seq<World>, evs: seq<Event>, i: nat, b: Inum)
    requires Run(ws, evs) && i < |ws| && b < CAPACITY
    ensures Used(ws[i].d, b) <==> IsReserved(b) || Reach(ws[i].d, b)
    ensures forall p, q :: PathTo(ws[i].d, p, b) && PathTo(ws[i].d, q, b) ==> p == q
  {
    RunSound(ws, evs, i);
    var w := ws[i];
    BitmapIsReachability(w.d, w.role, w.x, b);
    forall p, q | PathTo(w.d, p, b) && PathTo(w.d, q, b) ensures p == q {
      OneWay.OnePath(w.d, w.role, w.x, p, q);
    }
  }

  /** Unlink frees the blocks of the file it removes and no others: they are the ones
      that are no longer reached. */
  lemma UnlinkFrees(w: World, w': World, a: Inum, name: string, b: Inum)
    requires Sound(w) && Applies(Gone(a, name), w, w') && b < CAPACITY
    ensures var r := w.x.files[Find(EntriesOf(w, a), name)];
      && (Used(w.d, b) && !Used(w'.d, b) <==> Holds(r, b))
      && (Reach(w.d, b) && !Reach(w'.d, b) <==> Holds(r, b))
      && (Used(w'.d, b) ==> Used(w.d, b))
  {
    EventKeeps(Gone(a, name), w, w');
    var f := Find(EntriesOf(w, a), name);
    assert FileHere(w.d, w.role, w.x, f);
    Members(w.d, w.role, f, w.x.files[f]);
    BitmapIsReachability(w.d, w.role, w.x, b);
    BitmapIsReachability(w'.d, w'.role, w'.x, b);
    assert Used(w.d, b) <==> b in w.role;
    assert Used(w'.d, b) <==> b in w'.role;
    assert b in BlocksOf(w.x.files[f]) <==> Holds(w.x.files[f], b);
  }
}
