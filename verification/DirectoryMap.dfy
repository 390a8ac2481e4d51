/** Directories as maps from names to inums: what the entry lists of DirChain,
    DirInsert and DirRemove mean. */
module DirMap {
  import opened Volume
  import opened DirChain
  import opened DirOps
  import opened DirInsert
  import opened DirRemove

  lemma MapIsFind(es: seq<Entry>, name: string)
    ensures name in AsMap(es) <==> Named(es, name)
    ensures name in AsMap(es) ==> AsMap(es)[name] == Find(es, name)
  {
  }

  /** Two entry lists with the same lookups are the same map. */
  lemma SameLookups(xs: seq<Entry>, m: map<string, Inum>)
    requires forall n: string :: n in m <==> Named(xs, n)
    requires forall n: string :: n in m ==> m[n] == Find(xs, n)
    ensures AsMap(xs) == m
  {
    forall n: string ensures n in AsMap(xs) <==> n in m {
      MapIsFind(xs, n);
    }
    forall n: string | n in m ensures AsMap(xs)[n] == m[n] {
      MapIsFind(xs, n);
    }
  }

  lemma One(e: Entry, n: string)
    ensures Named([e], n) <==> e.name == n
    ensures e.name == n ==> Find([e], n) == e.inum
  {
    if e.name == n {
      assert [e][0].name == n;
    }
  }

  lemma FindAround(xs: seq<Entry>, e: Entry, ys: seq<Entry>, n: string)
    ensures Named(xs + [e] + ys, n) <==> Named(xs, n) || e.name == n || Named(ys, n)
    ensures Find(xs + [e] + ys, n) == if Named(xs, n) then Find(xs, n) else if e.name == n then e.inum else Find(ys, n)
  {
    FindIn(xs + [e], ys, n);
    FindIn(xs, [e], n);
    One(e, n);
  }

  /** An entry for a name that is not in front of it binds the name, whatever is
      behind it. */
  lemma InsertBinds(xs: seq<Entry>, e: Entry, ys: seq<Entry>)
    requires !Named(xs, e.name)
    ensures AsMap(xs + [e] + ys) == AsMap(xs + ys)[e.name := e.inum]
  {
    var m := AsMap(xs + ys)[e.name := e.inum];
    forall n: string
      ensures n in m <==> Named(xs + [e] + ys, n)
      ensures n in m ==> m[n] == Find(xs + [e] + ys, n)
    {
      FindAround(xs, e, ys, n);
      FindIn(xs, ys, n);
      MapIsFind(xs + ys, n);
    }
    SameLookups(xs + [e] + ys, m);
  }

  /** A new inum is bound to the name exactly if the name is not in front of it. */
  lemma InsertBindsWhen(xs: seq<Entry>, e: Entry, ys: seq<Entry>)
    requires forall i :: 0 <= i < |xs| ==> xs[i].inum != e.inum
    ensures AsMap(xs + [e] + ys) == AsMap(xs + ys)[e.name := e.inum] <==> !Named(xs, e.name)
  {
    if !Named(xs, e.name) {
      InsertBinds(xs, e, ys);
    } else {
      FindAround(xs, e, ys, e.name);
      MapIsFind(xs + [e] + ys, e.name);
      FoundThere(xs, e.name);
    }
  }

  lemma {:induction false} FoundThere(es: seq<Entry>, name: string)
    requires Named(es, name)
    ensures exists i :: 0 <= i < |es| && es[i].name == name && es[i].inum == Find(es, name)
  {
    if es[0].name != name {
      One(es[0], name);
      assert es == [es[0]] + es[1..];
      NamedIn([es[0]], es[1..], name);
      FoundThere(es[1..], name);
      var i :| 0 <= i < |es[1..]| && es[1..][i].name == name && es[1..][i].inum == Find(es[1..], name);
      assert es[i + 1] == es[1..][i];
    }
  }

  lemma DistinctPart(xs: seq<Entry>, e: Entry, ys: seq<Entry>)
    requires NamesDistinct(xs + [e] + ys)
    ensures NamesDistinct(xs + ys) && !Named(xs + ys, e.name)
  {
    var all, rest := xs + [e] + ys, xs + ys;
    assert forall i :: 0 <= i < |rest| ==> rest[i] == all[if i < |xs| then i else i + 1];
    assert all[|xs|] == e;
  }

  lemma DistinctWhole(xs: seq<Entry>, e: Entry, ys: seq<Entry>)
    requires NamesDistinct(xs + ys) && !Named(xs + ys, e.name)
    ensures NamesDistinct(xs + [e] + ys)
  {
    var all, rest := xs + [e] + ys, xs + ys;
    forall i, j | 0 <= i < j < |all| ensures all[i].name != all[j].name {
      assert i != |xs| ==> all[i] == rest[if i < |xs| then i else i - 1];
      assert j != |xs| ==> all[j] == rest[if j < |xs| then j else j - 1];
    }
  }

  // ----- create and mkdir -----

  /** Create of a name it does not see: the directory becomes the map with exactly
      that binding added or replaced. */
  lemma CreateBinds(d: Disk, role: Roles, dir: Inum, bs: seq<Inum>, d': Disk, role': Roles, bs': seq<Inum>,
                    e: Entry, n: Node, p: Purpose)
    requires Inserted(d, role, dir, bs, d', role', bs', e, n, p) && !Named(Seen(d, bs), e.name)
    ensures AsMap(All(d', bs')) == AsMap(All(d, bs))[e.name := e.inum]
  {
    SeenAndUnseen(d, bs);
    InsertBinds(Seen(d, bs), e, Unseen(d, bs));
  }

  /** Mkdir, which does not look, binds the new directory exactly if no entry of that
      name is in front of the place it takes. */
  lemma MkdirBindsWhen(d: Disk, role: Roles, dir: Inum, bs: seq<Inum>, d': Disk, role': Roles, bs': seq<Inum>,
                       e: Entry, n: Node, p: Purpose)
    requires Inserted(d, role, dir, bs, d', role', bs', e, n, p)
    requires forall i :: 0 <= i < |All(d, bs)| ==> All(d, bs)[i].inum in role
    ensures AsMap(All(d', bs')) == AsMap(All(d, bs))[e.name := e.inum] <==> !Named(Seen(d, bs), e.name)
  {
    SeenAndUnseen(d, bs);
    var xs, all := Seen(d, bs), All(d, bs);
    forall i | 0 <= i < |xs| ensures xs[i].inum != e.inum {
      assert all[i] == xs[i];
    }
    InsertBindsWhen(xs, e, Unseen(d, bs));
  }

  /** Names stay distinct exactly if the new name was in no block at all; the blocks
      behind the first with room are not looked at. */
  lemma StaysDistinct(d: Disk, role: Roles, dir: Inum, bs: seq<Inum>, d': Disk, role': Roles, bs': seq<Inum>,
                      e: Entry, n: Node, p: Purpose)
    requires Inserted(d, role, dir, bs, d', role', bs', e, n, p)
    ensures NamesDistinct(All(d', bs')) <==> NamesDistinct(All(d, bs)) && !Named(All(d, bs), e.name)
  {
    SeenAndUnseen(d, bs);
    var xs, ys := Seen(d, bs), Unseen(d, bs);
    if NamesDistinct(xs + [e] + ys) {
      DistinctPart(xs, e, ys);
    }
    if NamesDistinct(xs + ys) && !Named(xs + ys, e.name) {
      DistinctWhole(xs, e, ys);
    }
  }

  // ----- unlink -----

  lemma {:induction false} SplitAtFirst(es: seq<Entry>, name: string) returns (xs: seq<Entry>, e: Entry, ys: seq<Entry>)
    requires Named(es, name)
    ensures es == xs + [e] + ys && e.name == name && !Named(xs, name) && Without(es, name) == xs + ys
  {
    if es[0].name == name {
      xs, e, ys := [], es[0], es[1..];
    } else {
      One(es[0], name);
      assert es == [es[0]] + es[1..];
      NamedIn([es[0]], es[1..], name);
      xs, e, ys := SplitAtFirst(es[1..], name);
      NamedIn([es[0]], xs, name);
      xs := [es[0]] + xs;
    }
  }

  /** Unlink takes the binding away exactly if there was no second entry of the name
      behind the first. */
  lemma UnlinkUnbindsWhen(es: seq<Entry>, name: string)
    requires Named(es, name)
    ensures AsMap(Without(es, name)) == AsMap(es) - {name} <==> !Named(Without(es, name), name)
  {
    var xs, e, ys := SplitAtFirst(es, name);
    MapIsFind(xs + ys, name);
    if !Named(xs + ys, name) {
      var m := AsMap(es) - {name};
      forall n: string
        ensures n in m <==> Named(xs + ys, n)
        ensures n in m ==> m[n] == Find(xs + ys, n)
      {
        FindAround(xs, e, ys, n);
        FindIn(xs, ys, n);
        MapIsFind(es, n);
      }
      SameLookups(xs + ys, m);
    }
  }

  /** With distinct names unlink removes exactly its binding and names stay
      distinct. */
  lemma UnlinkUnbinds(es: seq<Entry>, name: string)
    requires NamesDistinct(es) && Named(es, name)
    ensures AsMap(Without(es, name)) == AsMap(es) - {name} && NamesDistinct(Without(es, name))
  {
    var xs, e, ys := SplitAtFirst(es, name);
    DistinctPart(xs, e, ys);
    UnlinkUnbindsWhen(es, name);
  }

  // ----- readdir -----

  lemma {:induction false} ItemsAre(es: seq<Entry>)
    requires InumsDistinct(es)
    ensures forall i :: 0 <= i < |es| ==> es[i].inum in Items(es) && Items(es)[es[i].inum] == es[i].name
    ensures forall k :: k in Items(es) ==> exists i :: 0 <= i < |es| && es[i].inum == k
  {
    if es != [] {
      var front, last := es[..|es| - 1], es[|es| - 1];
      ItemsAre(front);
      assert Items(es) == Items(front)[last.inum := last.name];
      forall k | k in Items(es) ensures exists i :: 0 <= i < |es| && es[i].inum == k {
        if k == last.inum {
          assert es[|es| - 1].inum == k;
        } else {
          assert k in Items(front);
          var i :| 0 <= i < |front| && front[i].inum == k;
          assert es[i].inum == k;
        }
      }
      forall i | 0 <= i < |es| ensures es[i].inum in Items(es) && Items(es)[es[i].inum] == es[i].name {
        assert i < |front| ==> es[i] == front[i];
      }
    }
  }

  /** What readdir returns is the map turned round. */
  ghost predicate Inverse(items: map<Inum, string>, m: map<string, Inum>) {
    forall k: Inum, n: string :: Paired(items, m, k, n)
  }

  predicate Paired(items: map<Inum, string>, m: map<string, Inum>, k: Inum, n: string) {
    (k in items && items[k] == n) <==> (n in m && m[n] == k)
  }

  lemma {:induction false} FindExact(es: seq<Entry>, i: nat)
    requires NamesDistinct(es) && i < |es|
    ensures Find(es, es[i].name) == es[i].inum && Named(es, es[i].name)
  {
    FindFirst(es, i, es[i].name);
  }

  /** Readdir lists the map exactly if the names are distinct. */
  lemma ReaddirListsMap(es: seq<Entry>)
    requires InumsDistinct(es)
    ensures Inverse(Items(es), AsMap(es)) <==> NamesDistinct(es)
  {
    if NamesDistinct(es) {
      forall k: Inum, n: string ensures Paired(Items(es), AsMap(es), k, n) {
        ListedOnce(es, k, n);
      }
    } else {
      ListedTwice(es);
    }
  }

  lemma ListedTwice(es: seq<Entry>)
    requires InumsDistinct(es) && !NamesDistinct(es)
    ensures !Inverse(Items(es), AsMap(es))
  {
    var i, j :| 0 <= i < j < |es| && es[i].name == es[j].name;
    ItemsAre(es);
    OneWins(Items(es), AsMap(es), es[i].inum, es[j].inum, es[i].name);
  }

  lemma OneWins(items: map<Inum, string>, m: map<string, Inum>, k: Inum, l: Inum, n: string)
    requires k != l && k in items && items[k] == n && l in items && items[l] == n
    ensures !Inverse(items, m)
  {
    assert !Paired(items, m, k, n) || !Paired(items, m, l, n);
  }

  lemma ListedOnce(es: seq<Entry>, k: Inum, n: string)
    requires NamesDistinct(es) && InumsDistinct(es)
    ensures Paired(Items(es), AsMap(es), k, n)
  {
    ItemsAre(es);
    MapIsFind(es, n);
    if k in Items(es) && Items(es)[k] == n {
      var i :| 0 <= i < |es| && es[i].inum == k;
      FindExact(es, i);
    }
    if n in AsMap(es) && AsMap(es)[n] == k {
      FoundThere(es, n);
    }
  }
}
