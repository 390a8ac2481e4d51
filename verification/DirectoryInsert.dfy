/** create and mkdir: finding a block with room, making the new file or directory,
    filling in the entry. */
module DirInsert {
  import opened Volume
  import opened DirChain
  import opened DirOps
  import F = FileChain
  import S = FileSteps

  /** The first block with room for an entry, |bs| if every block is full. */
  function FirstRoom(d: Disk, bs: seq<Inum>): (t: nat)
    ensures t <= |bs| && forall j :: 0 <= j < t ==> |Ent(d, bs[j])| >= ENTRIES
    ensures t < |bs| ==> |Ent(d, bs[t])| < ENTRIES
  {
    if bs == [] then 0 else
      var t := FirstRoom(d, bs[..|bs| - 1]);
      if t < |bs| - 1 || |Ent(d, bs[t])| < ENTRIES then t else |bs|
  }

  /** How much of the chain create looks at: the blocks up to the first with room. */
  function SeenBlocks(d: Disk, bs: seq<Inum>): (n: nat)
    ensures n <= |bs|
  {
    if FirstRoom(d, bs) < |bs| then FirstRoom(d, bs) + 1 else |bs|
  }

  /** The entries create looks at, and the others. */
  function Seen(d: Disk, bs: seq<Inum>): seq<Entry> {
    All(d, bs[..SeenBlocks(d, bs)])
  }

  function Unseen(d: Disk, bs: seq<Inum>): seq<Entry> {
    All(d, bs[SeenBlocks(d, bs)..])
  }

  lemma SeenAndUnseen(d: Disk, bs: seq<Inum>)
    ensures All(d, bs) == Seen(d, bs) + Unseen(d, bs)
  {
    var n := SeenBlocks(d, bs);
    assert bs == bs[..n] + bs[n..];
    AllSplit(d, bs[..n], bs[n..]);
  }

  /** The chain `bs` holds what `bs0` held, perhaps with an empty block more. */
  ghost predicate SameEntries(d0: Disk, bs0: seq<Inum>, d: Disk, bs: seq<Inum>) {
    && |bs0| <= |bs| <= |bs0| + 1 && bs[..|bs0|] == bs0
    && (forall j :: 0 <= j < |bs0| ==> Ent(d, bs[j]) == Ent(d0, bs0[j]))
    && (|bs| > |bs0| ==> Ent(d, bs[|bs0|]) == [])
  }

  lemma SameParts(d0: Disk, bs0: seq<Inum>, d: Disk, bs: seq<Inum>, n: nat)
    requires SameEntries(d0, bs0, d, bs) && n <= |bs0|
    ensures All(d, bs[..n]) == All(d0, bs0[..n]) && All(d, bs[n..]) == All(d0, bs0[n..])
  {
    AllSame(d0, d, bs0[..n]);
    assert bs[..n] == bs0[..n];
    AllSame(d0, d, bs0[n..]);
    if |bs| > |bs0| {
      assert bs[n..] == bs0[n..] + [bs[|bs0|]];
      AllSplit(d, bs0[n..], [bs[|bs0|]]);
      assert [bs[|bs0|]][..0] == [];
    } else {
      assert bs == bs0;
    }
  }

  /** Every block added since is in the chain. */
  ghost predicate NewIn(role: Roles, role': Roles, bs: seq<Inum>) {
    forall b :: b in role' && b !in role ==> b in bs
  }

  lemma NewInTwice(role: Roles, role1: Roles, bs1: seq<Inum>, role2: Roles, bs2: seq<Inum>)
    requires NewIn(role, role1, bs1) && NewIn(role1, role2, bs2)
    requires |bs1| <= |bs2| && bs2[..|bs1|] == bs1
    ensures NewIn(role, role2, bs2)
  {
    assert forall j :: 0 <= j < |bs1| ==> bs1[j] == bs2[..|bs1|][j];
  }

  /** Links a zero block behind the last one. */
  method LinkBlock(v: Vol, dir: Inum, target: Inum, node: DirInode, ghost bs: seq<Inum>)
    returns (node': DirInode, ghost bs': seq<Inum>)
    requires DirReady(v, dir, bs) && AtDir(v.disk, bs, |bs| - 1, target, node) && S.Room(v.role, 1)
    modifies v
    ensures |bs'| == |bs| + 1 && bs'[..|bs|] == bs && DirReady(v, dir, bs')
    ensures bs'[|bs|] !in old(v.role) && v.role == old(v.role)[bs'[|bs|] := Dir(dir, |bs|)]
    ensures node' == node.(next := bs'[|bs|]) && AtDir(v.disk, bs', |bs| - 1, target, node')
    ensures SameEntries(old(v.disk), bs, v.disk, bs') && TimesOf(v.disk, dir) == TimesOf(old(v.disk), dir)
    ensures DirGrew(old(v.disk), old(v.role), v.disk, v.role, dir)
    ensures v.stray == old(v.stray)
  {
    assert BlockOk(v.disk, v.role, dir, bs, |bs| - 1);
    BlockOf(v.disk, v.role, dir, bs, |bs| - 1);
    BlockOf(v.disk, v.role, dir, bs, 0);
    S.RoomIsFree(v.disk, v.role);
    var tmp := v.PutNew(BLANK, For(Dir(dir, |bs|)));
    node' := node.(next := tmp);
    bs' := bs + [tmp];
    var ok := v.SafePut(target, DirNode(node'), dir);
    LinkFrame(old(v.disk), old(v.role), dir, bs, tmp, v.disk);
    Linked(old(v.disk), old(v.role), dir, bs, tmp, v.disk, v.role);
  }

  lemma LinkFrame(d: Disk, role: Roles, dir: Inum, bs: seq<Inum>, tmp: Inum, d': Disk)
    requires DirOk(d, role, dir, bs) && tmp !in role
    requires IsDir(At(d, bs[|bs| - 1])) && At(d', tmp) == BLANK
    requires At(d', bs[|bs| - 1]) == DirNode(AsDir(At(d, bs[|bs| - 1])).(next := tmp))
    requires forall b :: !IsBitmap(b) && b != tmp && b != bs[|bs| - 1] ==> At(d', b) == At(d, b)
    requires forall i :: i in role && role[i].Reserved? <==> IsReserved(i)
    ensures SameEntries(d, bs, d', bs + [tmp])
    ensures forall i :: i in bs && i != bs[|bs| - 1] ==> At(d', i) == At(d, i)
  {
    forall j | 0 <= j < |bs| ensures Ent(d', bs[j]) == Ent(d, bs[j]) && bs[j] in role && !IsBitmap(bs[j]) {
      assert BlockOk(d, role, dir, bs, j);
    }
  }

  /** One turn of the loop that looks for room: on to the next block, or a new block
      is linked and the walk stays where it is. */
  method MoreRoom(v: Vol, dir: Inum, target: Inum, node: DirInode, ghost bs: seq<Inum>, ghost t: nat)
    returns (target': Inum, node': DirInode, ghost bs': seq<Inum>, ghost t': nat)
    requires DirReady(v, dir, bs) && AtDir(v.disk, bs, t, target, node)
    requires t == |bs| - 1 ==> S.Room(v.role, 1)
    modifies v
    ensures DirReady(v, dir, bs') && AtDir(v.disk, bs', t', target', node')
    ensures t < |bs| - 1 ==> bs' == bs && t' == t + 1 && v.role == old(v.role) && v.disk == old(v.disk)
    ensures t == |bs| - 1 ==> |bs'| == |bs| + 1 && t' == t && |v.role| == |old(v.role)| + 1
    ensures SameEntries(old(v.disk), bs, v.disk, bs') && NewIn(old(v.role), v.role, bs')
    ensures TimesOf(v.disk, dir) == TimesOf(old(v.disk), dir)
    ensures DirGrew(old(v.disk), old(v.role), v.disk, v.role, dir)
    ensures v.stray == old(v.stray)
  {
    bs', t' := bs, t;
    ChainEnds(v.disk, v.role, dir, bs, t);
    if node.next != 0 {
      target', node' := NextBlock(v, dir, target, node, bs, t);
      t' := t + 1;
    } else {
      target' := target;
      node', bs' := LinkBlock(v, dir, target, node, bs);
    }
  }

  /** Where the walk for room is. */
  ghost predicate Seeking(d0: Disk, bs0: seq<Inum>, d: Disk, bs: seq<Inum>, t: nat) {
    && SameEntries(d0, bs0, d, bs)
    && t <= FirstRoom(d0, bs0) && t < |bs|
    && (|bs| > |bs0| ==> FirstRoom(d0, bs0) == |bs0|)
  }

  lemma SeekingOn(d0: Disk, bs0: seq<Inum>, d: Disk, bs: seq<Inum>, t: nat, d': Disk, bs': seq<Inum>, t': nat)
    requires Seeking(d0, bs0, d, bs, t) && |Ent(d, bs[t])| >= ENTRIES
    requires SameEntries(d, bs, d', bs')
    requires t < |bs| - 1 ==> bs' == bs && t' == t + 1
    requires t == |bs| - 1 ==> |bs'| == |bs| + 1 && t' == t
    ensures t < |bs0| && Seeking(d0, bs0, d', bs', t')
  {
    assert bs[t] == bs[..|bs0|][t];
    if |bs| > |bs0| {
      assert bs' == bs;
    }
  }

  /** New blocks the walk may still need. */
  function Links(d0: Disk, bs0: seq<Inum>, bs: seq<Inum>): nat {
    if FirstRoom(d0, bs0) == |bs0| && |bs| == |bs0| then 1 else 0
  }

  /** Entries seen in a prefix of the chain settle what create will find. */
  lemma SeenEarly(d: Disk, bs: seq<Inum>, t: nat, name: string)
    requires t <= SeenBlocks(d, bs) && Named(All(d, bs[..t]), name)
    ensures Named(Seen(d, bs), name) && Find(All(d, bs), name) == Find(All(d, bs[..t]), name)
  {
    var n := SeenBlocks(d, bs);
    assert bs[..n] == bs[..t] + bs[t..n] && bs == bs[..t] + bs[t..];
    AllSplit(d, bs[..t], bs[t..n]);
    AllSplit(d, bs[..t], bs[t..]);
    FindIn(All(d, bs[..t]), All(d, bs[t..n]), name);
    FindIn(All(d, bs[..t]), All(d, bs[t..]), name);
  }

  /** Blocks that create allocates. */
  function CreateNeeds(d: Disk, bs: seq<Inum>, name: string): nat {
    if Named(Seen(d, bs), name) then 0 else 1 + Links(d, bs, bs)
  }

  /** A block in which create did not find the name. */
  lemma NotHere(d0: Disk, bs0: seq<Inum>, d: Disk, bs: seq<Inum>, t: nat, name: string)
    requires Seeking(d0, bs0, d, bs, t) && t < |bs0|
    requires !Named(All(d0, bs0[..t]), name) && !Named(Ent(d, bs[t]), name)
    ensures !Named(All(d0, bs0[..t + 1]), name)
    ensures t + 1 == SeenBlocks(d0, bs0) ==> !Named(Seen(d0, bs0), name)
  {
    assert Ent(d, bs[t]) == Ent(d0, bs0[t]);
    AllTo(d0, bs0, t);
    NamedIn(All(d0, bs0[..t]), Ent(d0, bs0[t]), name);
  }

  /** A block in which create found the name. */
  lemma Here(d0: Disk, bs0: seq<Inum>, d: Disk, bs: seq<Inum>, t: nat, index: nat, name: string)
    requires Seeking(d0, bs0, d, bs, t) && !Named(All(d0, bs0[..t]), name)
    requires var es := Ent(d, bs[t]);
      index < |es| && es[index].name == name && forall k :: 0 <= k < index ==> es[k].name != name
    ensures Named(Seen(d0, bs0), name) && Find(All(d0, bs0), name) == Ent(d, bs[t])[index].inum
  {
    assert t < |bs0| && Ent(d, bs[t]) == Ent(d0, bs0[t]);
    AllTo(d0, bs0, t);
    FindFirst(Ent(d0, bs0[t]), index, name);
    FindIn(All(d0, bs0[..t]), Ent(d0, bs0[t]), name);
    SeenEarly(d0, bs0, t + 1, name);
  }

  /** What holds between two turns of create's loop, which began with `d0`, `role0`
      and the chain `bs0`. */
  ghost predicate Creating(d0: Disk, role0: Roles, bs0: seq<Inum>, name: string,
                           d: Disk, role: Roles, bs: seq<Inum>, t: nat, dir: Inum) {
    && Seeking(d0, bs0, d, bs, t) && DirGrew(d0, role0, d, role, dir) && NewIn(role0, role, bs)
    && !Named(All(d0, bs0[..t]), name)
    && (|bs| > |bs0| ==> !Named(Seen(d0, bs0), name))
    && (bs == bs0 ==> d == d0 && role == role0)
    && |role| == |role0| + |bs| - |bs0| && TimesOf(d, dir) == TimesOf(d0, dir)
  }

  /** One turn of create's loop. */
  method CreateTurn(v: Vol, dir: Inum, target: Inum, node: DirInode, name: string,
                    ghost d0: Disk, ghost role0: Roles, ghost bs0: seq<Inum>, ghost bs: seq<Inum>, ghost t: nat)
    returns (found: bool, ino: Inum, target': Inum, node': DirInode, ghost bs': seq<Inum>, ghost t': nat)
    requires DirReady(v, dir, bs) && AtDir(v.disk, bs, t, target, node) && |node.entries| >= ENTRIES
    requires Creating(d0, role0, bs0, name, v.disk, v.role, bs, t, dir) && S.Room(role0, CreateNeeds(d0, bs0, name))
    modifies v
    ensures DirReady(v, dir, bs') && AtDir(v.disk, bs', t', target', node') && v.stray == old(v.stray)
    ensures Creating(d0, role0, bs0, name, v.disk, v.role, bs', t', dir)
    ensures found ==> Named(Seen(d0, bs0), name) && ino == Find(All(d0, bs0), name)
    ensures !found ==> Turns(bs0, bs', t') < Turns(bs0, bs, t)
  {
    ino, target', node', bs', t' := 0, target, node, bs, t;
    var index;
    assert bs[..|bs0|] == bs0;
    found, index := SearchBlock(node.entries, name);
    if found {
      Here(d0, bs0, v.disk, bs, t, index, name);
      ino := node.entries[index].inum;
      return;
    }
    NotHere(d0, bs0, v.disk, bs, t, name);
    ghost var d1, role1 := v.disk, v.role;
    target', node', bs', t' := MoreRoom(v, dir, target, node, bs, t);
    SeekingOn(d0, bs0, d1, bs, t, v.disk, bs', t');
    NewInTwice(role0, role1, bs, v.role, bs');
    DirGrewTwice(d0, role0, d1, role1, v.disk, v.role, dir);
  }

  /** Turns the loop can still make. */
  ghost function Turns(bs0: seq<Inum>, bs: seq<Inum>, t: nat): int {
    2 * (|bs0| + 1 - t) + |bs0| - |bs|
  }

  /** The duplicate check and the search for room of create. */
  method CreateSlot(v: Vol, dir: Inum, node0: DirInode, name: string, ghost bs0: seq<Inum>)
    returns (found: bool, ino: Inum, target: Inum, node: DirInode, ghost bs: seq<Inum>, ghost t: nat)
    requires DirReady(v, dir, bs0) && AtDir(v.disk, bs0, 0, dir, node0)
    requires S.Room(v.role, CreateNeeds(v.disk, bs0, name))
    modifies v
    ensures DirReady(v, dir, bs) && AtDir(v.disk, bs, t, target, node)
    ensures Creating(old(v.disk), old(v.role), bs0, name, v.disk, v.role, bs, t, dir)
    ensures found <==> Named(Seen(old(v.disk), bs0), name)
    ensures found ==> ino == Find(All(old(v.disk), bs0), name)
    ensures !found ==> |node.entries| < ENTRIES && S.Room(v.role, 1)
    ensures v.stray == old(v.stray)
  {
    ghost var d0, role0 := v.disk, v.role;
    target, node, bs, t, ino, found := dir, node0, bs0, 0, 0, false;
    while |node.entries| >= ENTRIES
      invariant DirReady(v, dir, bs) && AtDir(v.disk, bs, t, target, node)
      invariant Creating(d0, role0, bs0, name, v.disk, v.role, bs, t, dir)
      invariant v.stray == old(v.stray)
      decreases Turns(bs0, bs, t)
    {
      found, ino, target, node, bs, t := CreateTurn(v, dir, target, node, name, d0, role0, bs0, bs, t);
      if found {
        return;
      }
    }
    var index;
    found, index := SearchBlock(node.entries, name);
    if found {
      Here(d0, bs0, v.disk, bs, t, index, name);
      ino := node.entries[index].inum;
    } else {
      NotSeen(d0, bs0, v.disk, bs, t, name);
    }
  }

  lemma NotSeen(d0: Disk, bs0: seq<Inum>, d: Disk, bs: seq<Inum>, t: nat, name: string)
    requires Seeking(d0, bs0, d, bs, t) && |Ent(d, bs[t])| < ENTRIES
    requires !Named(All(d0, bs0[..t]), name) && !Named(Ent(d, bs[t]), name)
    ensures !Named(Seen(d0, bs0), name) && |bs| == |bs0| + Links(d0, bs0, bs0)
  {
    AtRoom(d0, bs0, d, bs, t);
    if t < |bs0| {
      NotHere(d0, bs0, d, bs, t, name);
    }
  }

  lemma AtRoom(d0: Disk, bs0: seq<Inum>, d: Disk, bs: seq<Inum>, t: nat)
    requires Seeking(d0, bs0, d, bs, t) && |Ent(d, bs[t])| < ENTRIES
    ensures t == FirstRoom(d0, bs0) && |bs| == |bs0| + (if t == |bs0| then 1 else 0)
  {
    if t < |bs0| {
      assert Ent(d, bs[t]) == Ent(d0, bs0[t]);
    }
  }

  /** The search for room of mkdir, which checks no names. */
  method MkdirSlot(v: Vol, dir: Inum, node0: DirInode, ghost bs0: seq<Inum>)
    returns (target: Inum, node: DirInode, ghost bs: seq<Inum>, ghost t: nat)
    requires DirReady(v, dir, bs0) && AtDir(v.disk, bs0, 0, dir, node0)
    requires S.Room(v.role, 1 + Links(v.disk, bs0, bs0))
    modifies v
    ensures DirReady(v, dir, bs) && AtDir(v.disk, bs, t, target, node)
    ensures Seeking(old(v.disk), bs0, v.disk, bs, t) && DirGrew(old(v.disk), old(v.role), v.disk, v.role, dir)
    ensures NewIn(old(v.role), v.role, bs) && TimesOf(v.disk, dir) == TimesOf(old(v.disk), dir)
    ensures |node.entries| < ENTRIES && S.Room(v.role, 1)
    ensures v.stray == old(v.stray)
  {
    ghost var d0, role0 := v.disk, v.role;
    target, node, bs, t := dir, node0, bs0, 0;
    while |node.entries| >= ENTRIES
      invariant DirReady(v, dir, bs) && AtDir(v.disk, bs, t, target, node)
      invariant Seeking(d0, bs0, v.disk, bs, t) && DirGrew(d0, role0, v.disk, v.role, dir) && NewIn(role0, v.role, bs)
      invariant |v.role| == |role0| + |bs| - |bs0| && TimesOf(v.disk, dir) == TimesOf(d0, dir)
      invariant v.stray == old(v.stray)
      decreases 2 * (|bs0| + 1 - t) + |bs0| - |bs|
    {
      assert bs[..|bs0|] == bs0;
      ghost var d1, role1, bs1, t1 := v.disk, v.role, bs, t;
      target, node, bs, t := MoreRoom(v, dir, target, node, bs, t);
      SeekingOn(d0, bs0, d1, bs1, t1, v.disk, bs, t);
      NewInTwice(role0, role1, bs1, v.role, bs);
      DirGrewTwice(d0, role0, d1, role1, v.disk, v.role, dir);
    }
  }

  /** Only the new block and blocks of the directory are added, and of the old blocks
      only those of the directory and the bitmap change. */
  ghost predicate DirGrewBy(d: Disk, role: Roles, d': Disk, role': Roles, dir: Inum, ino: Inum) {
    && F.RolesGrow(role, role')
    && (forall b :: b in role' && b !in role ==> b == ino || OfDir(role', b, dir))
    && (forall b :: b in role && !OfDir(role, b, dir) && !IsBitmap(b) ==> At(d', b) == At(d, b))
  }

  /** What create and mkdir do: the chain `bs` has become `bs'`, longer only if every
      block was full, with the entry behind those of the first block with room; the
      entry's block is new and holds `n`. */
  ghost predicate Inserted(d: Disk, role: Roles, dir: Inum, bs: seq<Inum>, d': Disk, role': Roles, bs': seq<Inum>,
                           e: Entry, n: Node, p: Purpose) {
    && DirOk(d', role', dir, bs') && |bs| <= |bs'| && bs'[..|bs|] == bs
    && |bs'| == |bs| + (if FirstRoom(d, bs) == |bs| then 1 else 0)
    && All(d', bs') == Seen(d, bs) + [e] + Unseen(d, bs)
    && e.inum !in role && e.inum in role' && role'[e.inum] == RoleOf(p, e.inum) && At(d', e.inum) == n
    && DirGrewBy(d, role, d', role', dir, e.inum)
    && (forall b :: b in role' && b !in role ==> b == e.inum || b in bs')
  }

  lemma EntriesAfter(d0: Disk, bs0: seq<Inum>, d: Disk, bs: seq<Inum>, t: nat, e: Entry)
    requires Seeking(d0, bs0, d, bs, t) && |Ent(d, bs[t])| < ENTRIES
    ensures All(d, bs[..t]) + (Ent(d, bs[t]) + [e]) + All(d, bs[t + 1..]) == Seen(d0, bs0) + [e] + Unseen(d0, bs0)
  {
    Around(d0, bs0, d, bs, t);
    Regroup(All(d, bs[..t]), Ent(d, bs[t]), e, All(d, bs[t + 1..]));
  }

  lemma Regroup(xs: seq<Entry>, ys: seq<Entry>, e: Entry, zs: seq<Entry>)
    ensures xs + (ys + [e]) + zs == (xs + ys) + [e] + zs
  {
  }

  lemma Around(d0: Disk, bs0: seq<Inum>, d: Disk, bs: seq<Inum>, t: nat)
    requires Seeking(d0, bs0, d, bs, t) && |Ent(d, bs[t])| < ENTRIES
    ensures All(d, bs[..t]) + Ent(d, bs[t]) == Seen(d0, bs0) && All(d, bs[t + 1..]) == Unseen(d0, bs0)
  {
    AtRoom(d0, bs0, d, bs, t);
    if t < |bs0| {
      AroundOld(d0, bs0, d, bs, t);
    } else {
      AroundNew(d0, bs0, d, bs);
    }
  }

  lemma AroundNew(d0: Disk, bs0: seq<Inum>, d: Disk, bs: seq<Inum>)
    requires SameEntries(d0, bs0, d, bs) && |bs| == |bs0| + 1 && FirstRoom(d0, bs0) == |bs0|
    ensures var t := |bs0|;
      All(d, bs[..t]) + Ent(d, bs[t]) == Seen(d0, bs0) && All(d, bs[t + 1..]) == Unseen(d0, bs0)
  {
    SameParts(d0, bs0, d, bs, |bs0|);
    LastEmpty(d0, bs0, d, bs);
  }

  lemma AroundOld(d0: Disk, bs0: seq<Inum>, d: Disk, bs: seq<Inum>, t: nat)
    requires SameEntries(d0, bs0, d, bs) && t == FirstRoom(d0, bs0) < |bs0|
    ensures All(d, bs[..t]) + Ent(d, bs[t]) == Seen(d0, bs0) && All(d, bs[t + 1..]) == Unseen(d0, bs0)
  {
    AllTo(d, bs, t);
    SameParts(d0, bs0, d, bs, t + 1);
  }

  lemma LastEmpty(d0: Disk, bs0: seq<Inum>, d: Disk, bs: seq<Inum>)
    requires SameEntries(d0, bs0, d, bs) && |bs| == |bs0| + 1 && FirstRoom(d0, bs0) == |bs0|
    ensures All(d, bs[|bs0| + 1..]) == [] == Unseen(d0, bs0) && Ent(d, bs[|bs0|]) == []
    ensures Seen(d0, bs0) == All(d0, bs0[..|bs0|])
  {
    assert bs[|bs0| + 1..] == [] && bs0[|bs0|..] == [];
  }

  /** Makes the new block and fills in the entry. */
  method Fill(v: Vol, dir: Inum, target: Inum, node: DirInode, name: string, n: Node, ghost p: Purpose,
              ghost bs: seq<Inum>, ghost t: nat) returns (ino: Inum)
    requires DirReady(v, dir, bs) && AtDir(v.disk, bs, t, target, node)
    requires |node.entries| < ENTRIES && S.Room(v.role, 1) && !p.For?
    modifies v
    ensures v.Valid() && v.held == old(v.held) && v.stray == old(v.stray)
    ensures ino !in old(v.role) && v.role == old(v.role)[ino := RoleOf(p, ino)] && At(v.disk, ino) == n
    ensures DirOk(v.disk, v.role, dir, bs)
    ensures All(v.disk, bs) == All(old(v.disk), bs[..t]) + (node.entries + [Entry(name, ino)]) + All(old(v.disk), bs[t + 1..])
    ensures DirGrewBy(old(v.disk), old(v.role), v.disk, v.role, dir, ino)
    ensures TimesOf(v.disk, dir) == TimesOf(old(v.disk), dir)
  {
    BlockOf(v.disk, v.role, dir, bs, t);
    BlockOf(v.disk, v.role, dir, bs, 0);
    S.RoomIsFree(v.disk, v.role);
    ino := v.PutNew(n, p);
    var node' := node.(entries := node.entries + [Entry(name, ino)]);
    Filled(old(v.disk), old(v.role), dir, bs, t, node, v.disk, v.role, Entry(name, ino), n);
    var ok := v.SafePut(target, DirNode(node'), dir);
  }

  /** `d1` has the new block, and then the entry is filled in. */
  lemma Filled(d: Disk, role: Roles, dir: Inum, bs: seq<Inum>, t: nat, node: DirInode, d1: Disk, role': Roles, e: Entry, n: Node)
    requires DirOk(d, role, dir, bs) && t < |bs| && AtDir(d, bs, t, bs[t], node) && |node.entries| < ENTRIES
    requires BitsOk(d, role) && e.inum !in role && e.inum in role' && role' == role[e.inum := role'[e.inum]]
    requires forall b :: !IsBitmap(b) ==> At(d1, b) == if b == e.inum then n else At(d, b)
    requires !IsBitmap(e.inum)
    ensures var d' := d1[bs[t] := DirNode(node.(entries := node.entries + [e]))];
      && DirOk(d', role', dir, bs) && At(d', e.inum) == n && DirGrewBy(d, role, d', role', dir, e.inum)
      && All(d', bs) == All(d, bs[..t]) + (node.entries + [e]) + All(d, bs[t + 1..])
  {
    BlockOf(d, role, dir, bs, t);
    assert BlockOk(d, role, dir, bs, t);
    KeptParts(d, role, dir, bs, t, d1, role');
    Rewritten(d1, role', dir, bs, t, node.(entries := node.entries + [e]));
    FilledFrame(d, role, dir, bs[t], d1, role', e.inum, DirNode(node.(entries := node.entries + [e])));
  }

  lemma KeptParts(d: Disk, role: Roles, dir: Inum, bs: seq<Inum>, t: nat, d1: Disk, role': Roles)
    requires DirOk(d, role, dir, bs) && t < |bs|
    requires forall b :: b in role && OfDir(role, b, dir) ==> b in role' && role'[b] == role[b] && At(d1, b) == At(d, b)
    ensures DirOk(d1, role', dir, bs)
    ensures All(d1, bs[..t]) == All(d, bs[..t]) && All(d1, bs[t + 1..]) == All(d, bs[t + 1..])
  {
    ChainKept(d, role, dir, bs, d1, role');
    AllSame(d, d1, bs[..t]);
    AllSame(d, d1, bs[t + 1..]);
  }

  lemma FilledFrame(d: Disk, role: Roles, dir: Inum, target: Inum, d1: Disk, role': Roles, ino: Inum, n: Node)
    requires target in role && OfDir(role, target, dir) && ino !in role && ino in role' && role' == role[ino := role'[ino]]
    requires forall b :: !IsBitmap(b) && b != ino ==> At(d1, b) == At(d, b)
    ensures DirGrewBy(d, role, d1[target := n], role', dir, ino)
  {
  }

  /** A directory stays as it is when other blocks change. */
  lemma ChainKept(d: Disk, role: Roles, dir: Inum, bs: seq<Inum>, d': Disk, role': Roles)
    requires DirOk(d, role, dir, bs)
    requires forall b :: b in role && OfDir(role, b, dir) ==> b in role' && role'[b] == role[b] && At(d', b) == At(d, b)
    ensures DirOk(d', role', dir, bs)
    ensures forall j :: 0 <= j < |bs| ==> Ent(d', bs[j]) == Ent(d, bs[j])
  {
    forall j | 0 <= j < |bs| ensures BlockOk(d', role', dir, bs, j) && At(d', bs[j]) == At(d, bs[j]) {
      assert BlockOk(d, role, dir, bs, j);
    }
  }

  lemma SameSeen(d0: Disk, bs: seq<Inum>, d: Disk)
    requires SameEntries(d0, bs, d, bs)
    ensures FirstRoom(d, bs) == FirstRoom(d0, bs) && Seen(d, bs) == Seen(d0, bs) && Unseen(d, bs) == Unseen(d0, bs)
    ensures All(d, bs) == All(d0, bs)
  {
    SameRoom(d0, bs, d);
    SameParts(d0, bs, d, bs, SeenBlocks(d0, bs));
    SameParts(d0, bs, d, bs, |bs|);
    assert bs[..|bs|] == bs;
  }

  lemma SameRoom(d0: Disk, bs: seq<Inum>, d: Disk)
    requires forall j :: 0 <= j < |bs| ==> Ent(d, bs[j]) == Ent(d0, bs[j])
    ensures FirstRoom(d, bs) == FirstRoom(d0, bs)
  {
  }

  /** Nothing but times of the directory's first block changed. */
  ghost predicate OnlyTimes(d: Disk, role: Roles, dir: Inum, bs: seq<Inum>, d': Disk, role': Roles) {
    && role' == role && DirOk(d', role', dir, bs) && SameEntries(d, bs, d', bs)
    && (forall b :: b != dir ==> At(d', b) == At(d, b))
  }

  lemma TimesChanged(d: Disk, role: Roles, dir: Inum, bs: seq<Inum>, d': Disk)
    requires DirOk(d, role, dir, bs) && DirOk(d', role, dir, bs) && Ent(d', dir) == Ent(d, dir)
    requires forall b :: b != dir ==> At(d', b) == At(d, b)
    ensures OnlyTimes(d, role, dir, bs, d', role) && DirGrew(d, role, d', role, dir)
  {
    assert BlockOk(d, role, dir, bs, 0);
  }

  /** The parts of an insertion put together: times, then the walk, then the entry. */
  lemma InsertedFrom(d: Disk, role: Roles, dir: Inum, bs: seq<Inum>, d1: Disk, d2: Disk, role2: Roles, bs': seq<Inum>,
                     t: nat, d': Disk, role': Roles, e: Entry, n: Node, p: Purpose)
    requires OnlyTimes(d, role, dir, bs, d1, role) && DirGrew(d, role, d1, role, dir)
    requires Seeking(d1, bs, d2, bs', t) && DirGrew(d1, role, d2, role2, dir) && |Ent(d2, bs'[t])| < ENTRIES
    requires NewIn(role, role2, bs')
    requires DirOk(d', role', dir, bs') && e.inum !in role2 && role' == role2[e.inum := RoleOf(p, e.inum)]
    requires All(d', bs') == All(d2, bs'[..t]) + (Ent(d2, bs'[t]) + [e]) + All(d2, bs'[t + 1..])
    requires DirGrewBy(d2, role2, d', role', dir, e.inum) && At(d', e.inum) == n
    ensures Inserted(d, role, dir, bs, d', role', bs', e, n, p)
  {
    SameSeen(d, bs, d1);
    AtRoom(d1, bs, d2, bs', t);
    EntriesAfter(d1, bs, d2, bs', t, e);
    GrewByFrom(d, role, dir, d1, d2, role2, d', role', e.inum);
  }

  lemma GrewByFrom(d: Disk, role: Roles, dir: Inum, d1: Disk, d2: Disk, role2: Roles, d': Disk, role': Roles, ino: Inum)
    requires DirGrew(d, role, d1, role, dir) && DirGrew(d1, role, d2, role2, dir) && DirGrewBy(d2, role2, d', role', dir, ino)
    ensures DirGrewBy(d, role, d', role', dir, ino)
  {
  }

  function FileBlock(now: nat): Node {
    FileNode(BLANK_FILE.(mode := 1, mtime := now, ctime := now))
  }

  function DirBlock(now: nat): Node {
    DirNode(BLANK_DIR.(mtime := now, ctime := now))
  }

  /** A new file: mode 1, empty, never read, written and changed now, no blocks. */
  predicate IsNewFile(n: Node, now: nat) {
    && n.FileNode? && n.file.mode == 1 && n.file.size == 0
    && n.file.atime == 0 && n.file.mtime == now && n.file.ctime == now
    && n.file.slots == [0, 0, 0, 0, 0, 0, 0, 0, 0, 0, 0, 0, 0, 0, 0, 0] && n.file.next == 0
  }

  /** A new directory: mode 0, no entries. */
  predicate IsNewDir(n: Node, now: nat) {
    && n.DirNode? && n.dir.mode == 0 && n.dir.entries == []
    && n.dir.atime == 0 && n.dir.mtime == now && n.dir.ctime == now && n.dir.next == 0
  }

  /** `inner_create`, with the directory's lock held: an entry of that name among
      those it looks at is returned and nothing but times changes; otherwise a new
      empty file gets the entry. */
  method InnerCreate(v: Vol, dir: Inum, name: string, now: nat, ghost bs: seq<Inum>)
    returns (ok: bool, ino: Inum, ghost bs': seq<Inum>)
    requires v.Valid() && v.held == {dir} && dir < CAPACITY && !IsBitmap(dir) && |name| < NAME_LEN
    requires dir in v.role ==> DirOk(v.disk, v.role, dir, bs) && S.Room(v.role, CreateNeeds(v.disk, bs, name))
    modifies v
    ensures v.Valid() && v.held == old(v.held) && v.stray == old(v.stray)
    ensures ok <==> dir in old(v.role)
    ensures !ok ==> v.disk == old(v.disk) && v.role == old(v.role)
    ensures ok && Named(Seen(old(v.disk), bs), name) ==>
              ino == Find(All(old(v.disk), bs), name) && bs' == bs && OnlyTimes(old(v.disk), old(v.role), dir, bs, v.disk, v.role)
    ensures ok && !Named(Seen(old(v.disk), bs), name) ==>
              && Inserted(old(v.disk), old(v.role), dir, bs, v.disk, v.role, bs', Entry(name, ino), FileBlock(now), NewFile)
              && IsNewFile(At(v.disk, ino), now)
    ensures ok ==> TimesOf(v.disk, dir) == TimesOf(old(v.disk), dir).(mtime := now, ctime := now)
  {
    ino, bs' := 0, bs;
    var node;
    ok, node := TouchTimes(v, dir, false, now, bs);
    if !ok {
      return;
    }
    ghost var d1 := v.disk;
    TimesChanged(old(v.disk), v.role, dir, bs, d1);
    SameSeen(old(v.disk), bs, d1);
    var found, target, at;
    ghost var t;
    found, ino, target, at, bs', t := CreateSlot(v, dir, node, name, bs);
    if !found {
      ghost var d2, role2 := v.disk, v.role;
      ino := Fill(v, dir, target, at, name, FileBlock(now), NewFile, bs', t);
      InsertedFrom(old(v.disk), old(v.role), dir, bs, d1, d2, role2, bs', t, v.disk, v.role,
                   Entry(name, ino), FileBlock(now), NewFile);
    }
  }

  /** `create`. */
  method Create(v: Vol, dir: Inum, name: string, now: nat, ghost bs: seq<Inum>)
    returns (ok: bool, ino: Inum, ghost bs': seq<Inum>)
    requires v.Valid() && v.held == {} && dir < CAPACITY && !IsBitmap(dir) && |name| < NAME_LEN
    requires dir in v.role ==> DirOk(v.disk, v.role, dir, bs) && S.Room(v.role, CreateNeeds(v.disk, bs, name))
    modifies v
    ensures v.Valid() && v.held == {} && v.stray == old(v.stray)
    ensures ok <==> dir in old(v.role)
    ensures !ok ==> v.disk == old(v.disk) && v.role == old(v.role)
    ensures ok && Named(Seen(old(v.disk), bs), name) ==>
              ino == Find(All(old(v.disk), bs), name) && bs' == bs && OnlyTimes(old(v.disk), old(v.role), dir, bs, v.disk, v.role)
    ensures ok && !Named(Seen(old(v.disk), bs), name) ==>
              && Inserted(old(v.disk), old(v.role), dir, bs, v.disk, v.role, bs', Entry(name, ino), FileBlock(now), NewFile)
              && IsNewFile(At(v.disk, ino), now)
    ensures ok ==> TimesOf(v.disk, dir) == TimesOf(old(v.disk), dir).(mtime := now, ctime := now)
  {
    v.Acquire(dir);
    ok, ino, bs' := InnerCreate(v, dir, name, now, bs);
    v.Release(dir);
  }

  /** `mkdir` checks no names and no results: the directory must be in use. */
  method Mkdir(v: Vol, dir: Inum, name: string, now: nat, ghost bs: seq<Inum>)
    returns (ino: Inum, ghost bs': seq<Inum>)
    requires v.Valid() && v.held == {} && dir in v.role && DirOk(v.disk, v.role, dir, bs) && |name| < NAME_LEN
    requires S.Room(v.role, 1 + Links(v.disk, bs, bs))
    modifies v
    ensures v.Valid() && v.held == {} && v.stray == old(v.stray)
    ensures Inserted(old(v.disk), old(v.role), dir, bs, v.disk, v.role, bs', Entry(name, ino), DirBlock(now), NewDir)
    ensures IsNewDir(At(v.disk, ino), now)
    ensures TimesOf(v.disk, dir) == TimesOf(old(v.disk), dir).(mtime := now, ctime := now)
  {
    BlockOf(v.disk, v.role, dir, bs, 0);
    v.Acquire(dir);
    var ok, node := TouchTimes(v, dir, false, now, bs);
    TimesChanged(old(v.disk), v.role, dir, bs, v.disk);
    ino, bs' := MkdirBody(v, dir, node, name, now, bs, old(v.disk));
    v.Release(dir);
  }

  method MkdirBody(v: Vol, dir: Inum, node: DirInode, name: string, now: nat, ghost bs: seq<Inum>, ghost d0: Disk)
    returns (ino: Inum, ghost bs': seq<Inum>)
    requires DirReady(v, dir, bs) && AtDir(v.disk, bs, 0, dir, node)
    requires OnlyTimes(d0, v.role, dir, bs, v.disk, v.role) && DirGrew(d0, v.role, v.disk, v.role, dir)
    requires S.Room(v.role, 1 + Links(d0, bs, bs))
    modifies v
    ensures v.Valid() && v.held == old(v.held) && v.stray == old(v.stray)
    ensures Inserted(d0, old(v.role), dir, bs, v.disk, v.role, bs', Entry(name, ino), DirBlock(now), NewDir)
    ensures TimesOf(v.disk, dir) == TimesOf(old(v.disk), dir)
  {
    SameSeen(d0, bs, v.disk);
    var target, at;
    ghost var t;
    target, at, bs', t := MkdirSlot(v, dir, node, bs);
    ghost var d2, role2 := v.disk, v.role;
    ino := Fill(v, dir, target, at, name, DirBlock(now), NewDir, bs', t);
    InsertedFrom(d0, old(v.role), dir, bs, old(v.disk), d2, role2, bs', t, v.disk, v.role,
                 Entry(name, ino), DirBlock(now), NewDir);
  }
}
