/** What messages look like on the wire. */
module WireForms {
  import opened Wire
  import opened Codec
  import opened RoundTrip
  import opened Messages

  /** Where the fields of a header are. */
  lemma HeaderAt(length: seq<octet>, h: ReqHeader, tys: seq<Ty>, vs: seq<Val>)
    requires |length| == 4 && |tys| == |vs|
    ensures var s := Request(length, h, tys, vs);
      && At(s, 0, length) && At(s, 4, Packed(h.xid)) && At(s, 8, Packed(h.proc)) && At(s, 12, Packed(h.cltNonce))
      && At(s, 16, Packed(h.srvNonce)) && At(s, 20, Packed(h.xidRep)) && At(s, 24, EncodeList(tys, vs))
  {
    var s := Request(length, h, tys, vs);
    var a, b, c, d, e := Packed(h.xid), Packed(h.proc), Packed(h.cltNonce), Packed(h.srvNonce), Packed(h.xidRep);
    assert At(s, 0, s);
    AtSplit(s, 0, length + ReqOctets(h), EncodeList(tys, vs));
    AtSplit(s, 0, length, ReqOctets(h));
    AtSplit(s, 4, a + b + c + d, e);
    AtSplit(s, 4, a + b + c, d);
    AtSplit(s, 4, a + b, c);
    AtSplit(s, 4, a, b);
  }

  lemma ReplyHeaderAt(length: seq<octet>, h: ReplyHeader, rest: seq<octet>, tys: seq<Ty>, vs: seq<Val>)
    requires |length| == 4 && |rest| == 12 && |tys| == |vs|
    ensures var s := ReplyTo(length, h, rest, tys, vs);
      At(s, 0, length) && At(s, 4, Packed(h.xid)) && At(s, 8, Packed(h.ret)) && At(s, 24, EncodeList(tys, vs))
  {
    var s := ReplyTo(length, h, rest, tys, vs);
    assert At(s, 0, s);
    AtSplit(s, 0, length + ReplyOctets(h) + rest, EncodeList(tys, vs));
    AtSplit(s, 0, length + ReplyOctets(h), rest);
    AtSplit(s, 0, length, ReplyOctets(h));
    AtSplit(s, 4, Packed(h.xid), Packed(h.ret));
  }

  // ----- values, from the front -----

  function VecOctets(elem: Ty, vs: seq<Val>): seq<octet> {
    if vs == [] then [] else Encode(elem, vs[0]) + VecOctets(elem, vs[1..])
  }

  /** A key and behind it its value. */
  function MapOctets(key: Ty, val: Ty, es: seq<(Val, Val)>): seq<octet> {
    if es == [] then [] else Encode(key, es[0].0) + Encode(val, es[0].1) + MapOctets(key, val, es[1..])
  }

  function ListOctets(tys: seq<Ty>, vs: seq<Val>): seq<octet>
    requires |tys| == |vs|
  {
    if vs == [] then [] else Encode(tys[0], vs[0]) + ListOctets(tys[1..], vs[1..])
  }

  lemma {:induction false} VecMore(elem: Ty, vs: seq<Val>, v: Val)
    ensures VecOctets(elem, vs + [v]) == VecOctets(elem, vs) + Encode(elem, v)
  {
    if vs == [] {
      assert VecOctets(elem, [v][1..]) == [];
    } else {
      assert (vs + [v])[1..] == vs[1..] + [v];
      VecMore(elem, vs[1..], v);
    }
  }

  lemma {:induction false} MapMore(key: Ty, val: Ty, es: seq<(Val, Val)>, e: (Val, Val))
    ensures MapOctets(key, val, es + [e]) == MapOctets(key, val, es) + (Encode(key, e.0) + Encode(val, e.1))
  {
    if es == [] {
      assert MapOctets(key, val, [e][1..]) == [];
    } else {
      assert (es + [e])[1..] == es[1..] + [e];
      MapMore(key, val, es[1..], e);
    }
  }

  lemma {:induction false} ListMore(tys: seq<Ty>, vs: seq<Val>, ty: Ty, v: Val)
    requires |tys| == |vs|
    ensures ListOctets(tys + [ty], vs + [v]) == ListOctets(tys, vs) + Encode(ty, v)
  {
    if vs == [] {
      assert ListOctets([ty][1..], [v][1..]) == [];
    } else {
      assert (vs + [v])[1..] == vs[1..] + [v] && (tys + [ty])[1..] == tys[1..] + [ty];
      ListMore(tys[1..], vs[1..], ty, v);
    }
  }

  /** The elements of a vector follow one another in their order. */
  lemma {:induction false} VecForm(ty: Ty, vs: seq<Val>)
    requires ty.TVec?
    ensures EncodeAll(ty, vs) == VecOctets(ty.elem, vs)
  {
    if vs != [] {
      var n := |vs| - 1;
      VecForm(ty, vs[..n]);
      VecMore(ty.elem, vs[..n], vs[n]);
      assert vs[..n] + [vs[n]] == vs;
    }
  }

  lemma {:induction false} MapForm(ty: Ty, es: seq<(Val, Val)>)
    requires ty.TMap?
    ensures EncodePairs(ty, es) == MapOctets(ty.key, ty.val, es)
  {
    if es != [] {
      var n := |es| - 1;
      MapForm(ty, es[..n]);
      MapMore(ty.key, ty.val, es[..n], es[n]);
      assert es[..n] + [es[n]] == es;
    }
  }

  /** So do the arguments of a call. */
  lemma {:induction false} ListForm(tys: seq<Ty>, vs: seq<Val>)
    requires |tys| == |vs|
    ensures EncodeList(tys, vs) == ListOctets(tys, vs)
  {
    if vs != [] {
      var n := |vs| - 1;
      ListForm(tys[..n], vs[..n]);
      ListMore(tys[..n], vs[..n], tys[n], vs[n]);
      assert vs[..n] + [vs[n]] == vs && tys[..n] + [tys[n]] == tys;
    }
  }

  /** Each kind of value: a bool is one octet, an int its octets from the highest down, a
      string its length in four octets and its characters, a vector its length and its
      elements in order, a map its size and each key followed by its value. */
  lemma WireForm(ty: Ty, v: Val)
    requires IsTy(ty) && Has(ty, v)
    ensures var e := Encode(ty, v);
      match ty
      case TBool => e == [if v.b then 1 else 0]
      case TInt(w, _) => |e| == w && forall i :: 0 <= i < w ==> e[i] == Shifted(Unsigned(v.n, w), w - 1 - i) % 256
      case TStr => e[..4] == Be(|v.s|, 4) && e[4..] == v.s
      case TVec(elem) => e[..4] == Be(|v.vs|, 4) && e[4..] == VecOctets(elem, v.vs)
      case TMap(key, val) => e[..4] == Be(|v.es|, 4) && e[4..] == MapOctets(key, val, v.es)
  {
    match ty
    case TBool =>
    case TInt(w, _) =>
      forall i | 0 <= i < w ensures Encode(ty, v)[i] == Shifted(Unsigned(v.n, w), w - 1 - i) % 256 {
        BeAt(Unsigned(v.n, w), w, i);
      }
    case TStr =>
    case TVec(_) => VecForm(ty, v.vs);
    case TMap(_, _) => MapForm(ty, v.es);
  }
}

/** The order in which a map's entries are sent. */
module KeyOrder {
  import opened Wire
  import opened Codec

  /** The first place two strings differ decides, or the shorter comes first. */
  ghost predicate Precedes(x: seq<octet>, y: seq<octet>, k: nat) {
    k <= |x| && k < |y| && x[..k] == y[..k] && (k == |x| || x[k] < y[k])
  }

  lemma {:induction false} LessStrWhen(x: seq<octet>, y: seq<octet>)
    ensures LessStr(x, y) <==> exists k: nat :: Precedes(x, y, k)
  {
    if LessStr(x, y) {
      FirstDifference(x, y);
    }
    if k: nat :| Precedes(x, y, k) {
      DifferenceDecides(x, y, k);
    }
  }

  lemma {:induction false} FirstDifference(x: seq<octet>, y: seq<octet>)
    requires LessStr(x, y)
    ensures exists k: nat :: Precedes(x, y, k)
  {
    if x == [] || x[0] != y[0] {
      assert Precedes(x, y, 0);
    } else {
      FirstDifference(x[1..], y[1..]);
      var k: nat :| Precedes(x[1..], y[1..], k);
      Longer(x, y, k);
      assert Precedes(x, y, k + 1);
    }
  }

  lemma {:induction false} DifferenceDecides(x: seq<octet>, y: seq<octet>, k: nat)
    requires Precedes(x, y, k)
    ensures LessStr(x, y)
  {
    if k > 0 {
      assert x[0] == x[..k][0] == y[..k][0] == y[0];
      assert x[1..][..k - 1] == x[..k][1..] && y[1..][..k - 1] == y[..k][1..];
      DifferenceDecides(x[1..], y[1..], k - 1);
    }
  }

  lemma Longer(x: seq<octet>, y: seq<octet>, k: nat)
    requires x != [] && y != [] && x[0] == y[0] && k <= |x| - 1 && k <= |y| - 1 && x[1..][..k] == y[1..][..k]
    ensures x[..k + 1] == y[..k + 1]
  {
    assert x[..k + 1] == [x[0]] + x[1..][..k] && y[..k + 1] == [y[0]] + y[1..][..k];
  }

  /** Keys go up: false before true, numbers by value, strings by their octets. */
  lemma KeysGoUp(a: Val, b: Val)
    ensures Less(a, b) <==>
              || (a == VBool(false) && b == VBool(true))
              || (a.VInt? && b.VInt? && a.n < b.n)
              || (a.VStr? && b.VStr? && exists k: nat :: Precedes(a.s, b.s, k))
  {
    if a.VStr? && b.VStr? {
      LessStrWhen(a.s, b.s);
    }
  }
}
