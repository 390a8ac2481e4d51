/** A directory as a chain of blocks with five entries each. */
module DirChain {
  import opened Volume

  predicate IsDir(n: Node) {
    n.DirNode? || n == BLANK
  }

  /** The entries of one block, and of a chain of blocks in order. */
  function Ent(d: Disk, b: Inum): seq<Entry> {
    if IsDir(At(d, b)) then AsDir(At(d, b)).entries else []
  }

  function All(d: Disk, bs: seq<Inum>): seq<Entry> {
    if bs == [] then [] else All(d, bs[..|bs| - 1]) + Ent(d, bs[|bs| - 1])
  }

  function NextIn(bs: seq<Inum>, j: nat): Inum {
    if j + 1 < |bs| then bs[j + 1] else 0
  }

  ghost predicate BlockOk(d: Disk, role: Roles, dir: Inum, bs: seq<Inum>, j: nat)
    requires j < |bs|
  {
    var b := bs[j];
    && b in role && role[b] == Dir(dir, j)
    && IsDir(At(d, b)) && AsDir(At(d, b)).next == NextIn(bs, j)
    && |AsDir(At(d, b)).entries| <= ENTRIES
  }

  ghost predicate DirOk(d: Disk, role: Roles, dir: Inum, bs: seq<Inum>) {
    && |bs| > 0 && bs[0] == dir
    && forall j :: 0 <= j < |bs| ==> BlockOk(d, role, dir, bs, j)
  }

  lemma {:induction false} AllSplit(d: Disk, xs: seq<Inum>, ys: seq<Inum>)
    ensures All(d, xs + ys) == All(d, xs) + All(d, ys)
  {
    if ys == [] {
      assert xs + ys == xs;
    } else {
      AllSplit(d, xs, ys[..|ys| - 1]);
      assert (xs + ys)[..|xs + ys| - 1] == xs + ys[..|ys| - 1];
    }
  }

  lemma {:induction false} AllSame(d: Disk, d': Disk, bs: seq<Inum>)
    requires forall j :: 0 <= j < |bs| ==> Ent(d', bs[j]) == Ent(d, bs[j])
    ensures All(d', bs) == All(d, bs)
  {
    if bs != [] {
      AllSame(d, d', bs[..|bs| - 1]);
    }
  }

  /** A chain at one of its blocks. */
  lemma AllAt(d: Disk, bs: seq<Inum>, t: nat)
    requires t < |bs|
    ensures All(d, bs) == All(d, bs[..t]) + Ent(d, bs[t]) + All(d, bs[t + 1..])
  {
    assert bs == bs[..t] + [bs[t]] + bs[t + 1..];
    AllSplit(d, bs[..t] + [bs[t]], bs[t + 1..]);
    AllSplit(d, bs[..t], [bs[t]]);
    assert All(d, [bs[t]]) == Ent(d, bs[t]) by {
      assert [bs[t]][..0] == [];
    }
  }

  // ----- names -----

  predicate Named(es: seq<Entry>, name: string) {
    exists i :: 0 <= i < |es| && es[i].name == name
  }

  /** The inum of the first entry of that name, 0 if there is none. */
  function Find(es: seq<Entry>, name: string): Inum {
    if es == [] then 0 else if es[0].name == name then es[0].inum else Find(es[1..], name)
  }

  lemma {:induction false} FindIn(xs: seq<Entry>, ys: seq<Entry>, name: string)
    ensures Named(xs + ys, name) <==> Named(xs, name) || Named(ys, name)
    ensures Find(xs + ys, name) == if Named(xs, name) then Find(xs, name) else Find(ys, name)
  {
    NamedIn(xs, ys, name);
    if xs == [] {
      assert xs + ys == ys;
    } else {
      FindIn(xs[1..], ys, name);
      assert (xs + ys)[1..] == xs[1..] + ys;
      assert xs == [xs[0]] + xs[1..];
      NamedIn([xs[0]], xs[1..], name);
      assert Named([xs[0]], name) <==> xs[0].name == name by {
        if xs[0].name == name { assert [xs[0]][0].name == name; }
      }
    }
  }

  lemma NamedIn(xs: seq<Entry>, ys: seq<Entry>, name: string)
    ensures Named(xs + ys, name) <==> Named(xs, name) || Named(ys, name)
  {
    if i :| 0 <= i < |xs + ys| && (xs + ys)[i].name == name {
      if i < |xs| {
        assert xs[i].name == name;
      } else {
        assert ys[i - |xs|].name == name;
      }
    }
    if i :| 0 <= i < |xs| && xs[i].name == name {
      assert (xs + ys)[i].name == name;
    }
    if i :| 0 <= i < |ys| && ys[i].name == name {
      assert (xs + ys)[|xs| + i].name == name;
    }
  }

  /** The first entry with the name. */
  lemma {:induction false} FindFirst(es: seq<Entry>, i: nat, name: string)
    requires i < |es| && es[i].name == name
    requires forall k :: 0 <= k < i ==> es[k].name != name
    ensures Find(es, name) == es[i].inum && Named(es, name)
  {
    if i > 0 {
      FindFirst(es[1..], i - 1, name);
    }
  }

  lemma {:induction false} FindNone(es: seq<Entry>, name: string)
    requires !Named(es, name)
    ensures Find(es, name) == 0
  {
    if es != [] {
      assert es[0].name != name;
      forall i | 0 <= i < |es[1..]| ensures es[1..][i].name != name {
        assert es[i + 1].name != name;
      }
      FindNone(es[1..], name);
    }
  }

  ghost predicate NamesDistinct(es: seq<Entry>) {
    forall i, j :: 0 <= i < j < |es| ==> es[i].name != es[j].name
  }

  ghost predicate InumsDistinct(es: seq<Entry>) {
    forall i, j :: 0 <= i < j < |es| ==> es[i].inum != es[j].inum
  }

  /** The directory as a map from names to inums. */
  function AsMap(es: seq<Entry>): map<string, Inum> {
    map i | 0 <= i < |es| :: es[i].name := Find(es, es[i].name)
  }
}

/** create, lookup, readdir, mkdir and the directory half of unlink. */
module DirOps {
  import opened Volume
  import opened DirChain
  import F = FileChain

  const IOERR: Inum := 3

  /** Inside an operation on directory `dir`: its lock is the only one held. */
  ghost predicate DirReady(v: Vol, dir: Inum, bs: seq<Inum>)
    reads v
  {
    v.Valid() && DirOk(v.disk, v.role, dir, bs) && v.held == {dir}
  }

  ghost predicate OfDir(role: Roles, b: Inum, dir: Inum)
    requires b in role
  {
    role[b].Dir? && role[b].dir == dir
  }

  /** Only blocks of the directory are added, and of the old blocks only those of
      the directory and the bitmap change. */
  ghost predicate DirGrew(d: Disk, role: Roles, d': Disk, role': Roles, dir: Inum) {
    && F.RolesGrow(role, role')
    && (forall b :: b in role' && b !in role ==> OfDir(role', b, dir))
    && (forall b :: b in role && !OfDir(role, b, dir) && !IsBitmap(b) ==> At(d', b) == At(d, b))
  }

  lemma DirGrewTwice(d: Disk, role: Roles, d': Disk, role': Roles, d'': Disk, role'': Roles, dir: Inum)
    requires DirGrew(d, role, d', role', dir) && DirGrew(d', role', d'', role'', dir)
    ensures DirGrew(d, role, d'', role'', dir)
  {
  }

  lemma BlockOf(d: Disk, role: Roles, dir: Inum, bs: seq<Inum>, j: nat)
    requires BitsOk(d, role) && DirOk(d, role, dir, bs) && j < |bs|
    ensures bs[j] in role && bs[j] < CAPACITY && !IsReserved(bs[j]) && IsBitmap(BitmapBlock(bs[j]))
    ensures j > 0 ==> bs[j] != dir
  {
    assert BlockOk(d, role, dir, bs, j) && BlockOk(d, role, dir, bs, 0);
    BitmapOf(bs[j]);
  }

  /** One block of the chain is rewritten. */
  lemma Rewritten(d: Disk, role: Roles, dir: Inum, bs: seq<Inum>, t: nat, n: DirInode)
    requires DirOk(d, role, dir, bs) && t < |bs| && n.next == NextIn(bs, t) && |n.entries| <= ENTRIES
    ensures var d' := d[bs[t] := DirNode(n)];
      && DirOk(d', role, dir, bs)
      && All(d', bs) == All(d, bs[..t]) + n.entries + All(d, bs[t + 1..])
  {
    var d' := d[bs[t] := DirNode(n)];
    assert BlockOk(d, role, dir, bs, t);
    forall j | 0 <= j < |bs|
      ensures BlockOk(d', role, dir, bs, j) && (j != t ==> Ent(d', bs[j]) == Ent(d, bs[j]))
    {
      assert BlockOk(d, role, dir, bs, j);
    }
    AllAt(d', bs, t);
    AllSame(d, d', bs[..t]);
    AllSame(d, d', bs[t + 1..]);
  }

  /** A zero block is linked behind the last one. */
  lemma Linked(d: Disk, role: Roles, dir: Inum, bs: seq<Inum>, b: Inum, d': Disk, role': Roles)
    requires DirOk(d, role, dir, bs) && b !in role && role' == role[b := Dir(dir, |bs|)]
    requires At(d', b) == BLANK && IsDir(At(d, bs[|bs| - 1]))
    requires At(d', bs[|bs| - 1]) == DirNode(AsDir(At(d, bs[|bs| - 1])).(next := b))
    requires forall i :: i in bs && i != bs[|bs| - 1] ==> At(d', i) == At(d, i)
    ensures DirOk(d', role', dir, bs + [b]) && All(d', bs + [b]) == All(d, bs)
  {
    var bs' := bs + [b];
    var n := |bs| - 1;
    assert BlockOk(d, role, dir, bs, n);
    forall j | 0 <= j < |bs'|
      ensures BlockOk(d', role', dir, bs', j) && (j <= n ==> Ent(d', bs'[j]) == Ent(d, bs[j]))
    {
      if j <= n {
        assert BlockOk(d, role, dir, bs, j);
      }
    }
    AllSame(d, d', bs);
    assert bs'[..|bs|] == bs;
  }

  /** The fields of a directory block besides its entries and its pointer. */
  datatype Times = Times(mode: nat, atime: nat, mtime: nat, ctime: nat)

  function TimesOf(d: Disk, b: Inum): Times {
    var n := if IsDir(At(d, b)) then AsDir(At(d, b)) else BLANK_DIR;
    Times(n.mode, n.atime, n.mtime, n.ctime)
  }

  function Stamp(t: Times, atime: bool, now: nat): Times {
    if atime then t.(atime := now) else t.(mtime := now, ctime := now)
  }

  /** The strcmp loop over one block: the first entry of that name. */
  method SearchBlock(entries: seq<Entry>, name: string) returns (found: bool, index: nat)
    ensures found <==> Named(entries, name)
    ensures found ==> index < |entries| && entries[index].name == name
                      && forall k :: 0 <= k < index ==> entries[k].name != name
  {
    index := 0;
    while index < |entries|
      invariant 0 <= index <= |entries|
      invariant forall k :: 0 <= k < index ==> entries[k].name != name
    {
      if entries[index].name == name {
        return true, index;
      }
      index := index + 1;
    }
    return false, index;
  }

  /** Reads the first block and writes it back with new times. Fails if the block is
      not in use. */
  method TouchTimes(v: Vol, dir: Inum, atime: bool, now: nat, ghost bs: seq<Inum>) returns (ok: bool, node: DirInode)
    requires v.Valid() && v.held == {dir} && dir < CAPACITY && !IsBitmap(dir)
    requires dir in v.role ==> DirOk(v.disk, v.role, dir, bs)
    modifies v
    ensures ok <==> dir in v.role
    ensures v.role == old(v.role) && v.held == old(v.held) && v.stray == old(v.stray)
    ensures !ok ==> v.disk == old(v.disk)
    ensures ok ==> DirReady(v, dir, bs) && All(v.disk, bs) == All(old(v.disk), bs) && At(v.disk, dir) == DirNode(node)
                   && Ent(v.disk, dir) == Ent(old(v.disk), dir)
                   && TimesOf(v.disk, dir) == Stamp(TimesOf(old(v.disk), dir), atime, now)
    ensures forall b :: b != dir ==> At(v.disk, b) == old(At(v.disk, b))
    ensures v.Valid()
  {
    BitmapOf(dir);
    var n;
    ok, n := v.SafeGet(dir, dir);
    node := BLANK_DIR;
    if ok {
      assert BlockOk(v.disk, v.role, dir, bs, 0);
      node := AsDir(n);
      node := if atime then node.(atime := now) else node.(mtime := now, ctime := now);
      Rewritten(v.disk, v.role, dir, bs, 0, node);
      AllAt(v.disk, bs, 0);
    }
    ok := v.SafePut(dir, DirNode(node), dir);
  }

  /** `node` is the block the walk stands on. */
  ghost predicate AtDir(d: Disk, bs: seq<Inum>, t: nat, target: Inum, node: DirInode) {
    t < |bs| && target == bs[t] && IsDir(At(d, target)) && AsDir(At(d, target)) == node
  }

  lemma ChainEnds(d: Disk, role: Roles, dir: Inum, bs: seq<Inum>, t: nat)
    requires BitsOk(d, role) && DirOk(d, role, dir, bs) && t < |bs|
    ensures IsDir(At(d, bs[t])) && (AsDir(At(d, bs[t])).next == 0 <==> t + 1 == |bs|)
  {
    assert BlockOk(d, role, dir, bs, t);
    if t + 1 < |bs| {
      BlockOf(d, role, dir, bs, t + 1);
    }
  }

  /** Reads the next block of the chain. */
  method NextBlock(v: Vol, dir: Inum, target: Inum, node: DirInode, ghost bs: seq<Inum>, ghost t: nat)
    returns (target': Inum, node': DirInode)
    requires DirReady(v, dir, bs) && AtDir(v.disk, bs, t, target, node) && node.next != 0
    modifies v`held, v`stray
    ensures DirReady(v, dir, bs) && AtDir(v.disk, bs, t + 1, target', node')
    ensures v.stray == old(v.stray)
  {
    assert BlockOk(v.disk, v.role, dir, bs, t);
    assert BlockOk(v.disk, v.role, dir, bs, t + 1);
    BlockOf(v.disk, v.role, dir, bs, t + 1);
    BlockOf(v.disk, v.role, dir, bs, 0);
    target' := node.next;
    var ok, n := v.SafeGet(target', dir);
    node' := AsDir(n);
  }

  /** The walk of `lookup` and `unlink`: the first entry of that name in the chain. */
  method FindEntry(v: Vol, dir: Inum, node0: DirInode, name: string, ghost bs: seq<Inum>)
    returns (found: bool, target: Inum, node: DirInode, index: nat, ghost t: nat)
    requires DirReady(v, dir, bs) && AtDir(v.disk, bs, 0, dir, node0)
    modifies v`held, v`stray
    ensures DirReady(v, dir, bs) && AtDir(v.disk, bs, t, target, node) && v.stray == old(v.stray)
    ensures found <==> Named(All(v.disk, bs), name)
    ensures found ==> index < |node.entries| && node.entries[index].name == name
                      && !Named(All(v.disk, bs[..t]) + node.entries[..index], name)
                      && Find(All(v.disk, bs), name) == node.entries[index].inum
  {
    target, node, t := dir, node0, 0;
    while true
      invariant DirReady(v, dir, bs) && AtDir(v.disk, bs, t, target, node) && v.stray == old(v.stray)
      invariant !Named(All(v.disk, bs[..t]), name)
      decreases |bs| - t
    {
      assert BlockOk(v.disk, v.role, dir, bs, t);
      AllTo(v.disk, bs, t);
      FindIn(All(v.disk, bs[..t]), node.entries, name);
      found, index := SearchBlock(node.entries, name);
      if found {
        FoundAt(v.disk, bs, t, node.entries, index, name);
        return;
      }
      ChainEnds(v.disk, v.role, dir, bs, t);
      if node.next == 0 {
        assert bs[..t + 1] == bs;
        return;
      }
      target, node := NextBlock(v, dir, target, node, bs, t);
      t := t + 1;
    }
  }

  lemma AllTo(d: Disk, bs: seq<Inum>, t: nat)
    requires t < |bs|
    ensures All(d, bs[..t + 1]) == All(d, bs[..t]) + Ent(d, bs[t])
  {
    assert bs[..t + 1][..t] == bs[..t];
  }

  lemma FoundAt(d: Disk, bs: seq<Inum>, t: nat, es: seq<Entry>, index: nat, name: string)
    requires t < |bs| && Ent(d, bs[t]) == es && index < |es| && es[index].name == name
    requires !Named(All(d, bs[..t]), name)
    requires forall k :: 0 <= k < index ==> es[k].name != name
    ensures Named(All(d, bs), name) && Find(All(d, bs), name) == es[index].inum
    ensures !Named(All(d, bs[..t]) + es[..index], name)
  {
    AllAt(d, bs, t);
    FindFirst(es, index, name);
    FindIn(All(d, bs[..t]) + es, All(d, bs[t + 1..]), name);
    FindIn(All(d, bs[..t]), es, name);
    NamedIn(All(d, bs[..t]), es[..index], name);
  }

  /** `lookup`: the inum of the name, 0 if there is none, and IOERR in its place if
      the directory is not in use. */
  method Lookup(v: Vol, dir: Inum, name: string, now: nat, ghost bs: seq<Inum>) returns (ret: Inum)
    requires v.Valid() && v.held == {} && dir < CAPACITY && !IsBitmap(dir)
    requires dir in v.role ==> DirOk(v.disk, v.role, dir, bs)
    modifies v
    ensures ret == if dir in v.role then Find(All(old(v.disk), bs), name) else 3
    ensures v.Valid() && v.role == old(v.role) && v.held == {} && v.stray == old(v.stray)
    ensures dir in v.role ==> DirOk(v.disk, v.role, dir, bs) && All(v.disk, bs) == All(old(v.disk), bs)
    ensures if dir in v.role then Ent(v.disk, dir) == Ent(old(v.disk), dir) else v.disk == old(v.disk)
    ensures dir in v.role ==> TimesOf(v.disk, dir) == TimesOf(old(v.disk), dir).(atime := now)
    ensures forall b :: b != dir ==> At(v.disk, b) == old(At(v.disk, b))
  {
    ret := 0;
    v.Acquire(dir);
    var ok, node := TouchTimes(v, dir, true, now, bs);
    if !ok {
      ret := IOERR;
    } else {
      var found, target, at, index;
      ghost var t;
      found, target, at, index, t := FindEntry(v, dir, node, name, bs);
      if found {
        ret := at.entries[index].inum;
      } else {
        FindNone(All(v.disk, bs), name);
      }
    }
    v.Release(dir);
  }

  /** The items map of `readdir` after the entries: a later entry of the same inum
      wins. */
  function Items(es: seq<Entry>): map<Inum, string> {
    if es == [] then map[] else Items(es[..|es| - 1])[es[|es| - 1].inum := es[|es| - 1].name]
  }

  lemma {:induction false} ItemsMore(xs: seq<Entry>, ys: seq<Entry>)
    ensures Items(xs + ys) == if ys == [] then Items(xs) else Items(xs + ys[..|ys| - 1])[ys[|ys| - 1].inum := ys[|ys| - 1].name]
  {
    if ys == [] {
      assert xs + ys == xs;
    } else {
      assert (xs + ys)[..|xs + ys| - 1] == xs + ys[..|ys| - 1];
    }
  }

  method AddItems(items: map<Inum, string>, entries: seq<Entry>, ghost before: seq<Entry>) returns (all: map<Inum, string>)
    requires items == Items(before)
    ensures all == Items(before + entries)
  {
    all := items;
    assert before + entries[..0] == before;
    for i := 0 to |entries|
      invariant all == Items(before + entries[..i])
    {
      ItemsMore(before, entries[..i + 1]);
      assert entries[..i + 1][..i] == entries[..i];
      all := all[entries[i].inum := entries[i].name];
    }
    assert entries[..|entries|] == entries;
  }

  method ReadEntries(v: Vol, dir: Inum, node0: DirInode, ghost bs: seq<Inum>) returns (items: map<Inum, string>)
    requires DirReady(v, dir, bs) && AtDir(v.disk, bs, 0, dir, node0)
    modifies v`held, v`stray
    ensures DirReady(v, dir, bs) && v.stray == old(v.stray)
    ensures items == Items(All(v.disk, bs))
  {
    var target, node := dir, node0;
    ghost var t: nat := 0;
    items := map[];
    while true
      invariant DirReady(v, dir, bs) && AtDir(v.disk, bs, t, target, node) && v.stray == old(v.stray)
      invariant items == Items(All(v.disk, bs[..t]))
      decreases |bs| - t
    {
      assert BlockOk(v.disk, v.role, dir, bs, t);
      AllTo(v.disk, bs, t);
      items := AddItems(items, node.entries, All(v.disk, bs[..t]));
      ChainEnds(v.disk, v.role, dir, bs, t);
      if node.next == 0 {
        assert bs[..t + 1] == bs;
        return;
      }
      target, node := NextBlock(v, dir, target, node, bs, t);
      t := t + 1;
    }
  }

  /** `readdir`: fails exactly if the directory is not in use. */
  method Readdir(v: Vol, dir: Inum, now: nat, ghost bs: seq<Inum>) returns (ok: bool, items: map<Inum, string>)
    requires v.Valid() && v.held == {} && dir < CAPACITY && !IsBitmap(dir)
    requires dir in v.role ==> DirOk(v.disk, v.role, dir, bs)
    modifies v
    ensures ok <==> dir in v.role
    ensures items == if ok then Items(All(old(v.disk), bs)) else map[]
    ensures v.Valid() && v.role == old(v.role) && v.held == {} && v.stray == old(v.stray)
    ensures dir in v.role ==> DirOk(v.disk, v.role, dir, bs) && All(v.disk, bs) == All(old(v.disk), bs)
    ensures if dir in v.role then Ent(v.disk, dir) == Ent(old(v.disk), dir) else v.disk == old(v.disk)
    ensures dir in v.role ==> TimesOf(v.disk, dir) == TimesOf(old(v.disk), dir).(atime := now)
    ensures forall b :: b != dir ==> At(v.disk, b) == old(At(v.disk, b))
  {
    items := map[];
    v.Acquire(dir);
    var node;
    ok, node := TouchTimes(v, dir, true, now, bs);
    if ok {
      items := ReadEntries(v, dir, node, bs);
    }
    v.Release(dir);
  }
}
