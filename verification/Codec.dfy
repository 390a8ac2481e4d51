/** The typed encoding of RPC arguments and results, on values. */
module Codec {
  import opened Wire

  /** The types with a marshall operator: bool, integers of 1, 2, 4 and 8 octets,
      strings, vectors and maps. */
  datatype Ty = TBool | TInt(w: nat, signed: bool) | TStr | TVec(elem: Ty) | TMap(key: Ty, val: Ty)

  /** A map is its entries in the order of their keys. */
  datatype Val = VBool(b: bool) | VInt(n: int) | VStr(s: seq<octet>) | VVec(vs: seq<Val>) | VMap(es: seq<(Val, Val)>)

  /** Keys are compared as std::map compares integers and strings. */
  predicate Less(a: Val, b: Val) {
    match (a, b)
    case (VBool(x), VBool(y)) => !x && y
    case (VInt(x), VInt(y)) => x < y
    case (VStr(x), VStr(y)) => LessStr(x, y)
    case _ => false
  }

  predicate LessStr(x: seq<octet>, y: seq<octet>) {
    if y == [] then false
    else if x == [] then true
    else if x[0] != y[0] then x[0] < y[0]
    else LessStr(x[1..], y[1..])
  }

  predicate IsTy(ty: Ty) {
    match ty
    case TBool => true
    case TInt(w, signed) => w == 1 || w == 2 || w == 4 || (w == 8 && !signed)
    case TStr => true
    case TVec(e) => IsTy(e)
    case TMap(k, e) => (k.TBool? || k.TInt? || k.TStr?) && IsTy(k) && IsTy(e)
  }

  predicate InRange(n: int, w: nat, signed: bool) {
    if signed then -(Pow256(w) / 2) <= n < Pow256(w) / 2 else 0 <= n < Pow256(w)
  }

  ghost predicate Ordered(es: seq<(Val, Val)>) {
    forall i, j {:trigger Less(es[i].0, es[j].0)} :: 0 <= i < j < |es| ==> Less(es[i].0, es[j].0)
  }

  ghost predicate Has(ty: Ty, v: Val)
    decreases ty, 1
  {
    match ty
    case TBool => v.VBool?
    case TInt(w, signed) => v.VInt? && InRange(v.n, w, signed)
    case TStr => v.VStr? && |v.s| < TWO32
    case TVec(e) => v.VVec? && |v.vs| < TWO32 && forall i {:trigger Has(e, v.vs[i])} :: 0 <= i < |v.vs| ==> Has(e, v.vs[i])
    case TMap(_, _) =>
      && v.VMap? && |v.es| < TWO32 && Ordered(v.es)
      && forall i {:trigger PairOk(ty, v.es[i])} :: 0 <= i < |v.es| ==> PairOk(ty, v.es[i])
  }

  ghost predicate PairOk(ty: Ty, p: (Val, Val))
    requires ty.TMap?
    decreases ty, 0
  {
    Has(ty.key, p.0) && Has(ty.val, p.1)
  }

  // ----- encoding -----

  /** The cast to unsigned of a number of w octets. */
  function Unsigned(n: int, w: nat): nat {
    if n >= 0 then n else if n + Pow256(w) >= 0 then n + Pow256(w) else 0
  }

  function Encode(ty: Ty, v: Val): seq<octet>
    decreases ty, 1, 0
  {
    match ty
    case TBool => if v.VBool? && v.b then [1] else [0]
    case TInt(w, _) => if v.VInt? then Be(Unsigned(v.n, w), w) else []
    case TStr => if v.VStr? then Be(|v.s|, 4) + v.s else []
    case TVec(_) => if v.VVec? then Be(|v.vs|, 4) + EncodeAll(ty, v.vs) else []
    case TMap(_, _) => if v.VMap? then Be(|v.es|, 4) + EncodePairs(ty, v.es) else []
  }

  /** The operator a container calls for each element. */
  function EncodeOne(ty: Ty, v: Val): seq<octet>
    decreases ty, 2, 0
  {
    Encode(ty, v)
  }

  function EncodeAll(ty: Ty, vs: seq<Val>): seq<octet>
    requires ty.TVec?
    decreases ty, 0, |vs|
  {
    if vs == [] then [] else EncodeAll(ty, vs[..|vs| - 1]) + EncodeOne(ty.elem, vs[|vs| - 1])
  }

  function EncodePairs(ty: Ty, es: seq<(Val, Val)>): seq<octet>
    requires ty.TMap?
    decreases ty, 0, |es|
  {
    if es == [] then [] else EncodePairs(ty, es[..|es| - 1]) + EncodePair(ty, es[|es| - 1])
  }

  function EncodePair(ty: Ty, e: (Val, Val)): seq<octet>
    requires ty.TMap?
    decreases ty, 0, 0
  {
    EncodeOne(ty.key, e.0) + EncodeOne(ty.val, e.1)
  }

  // ----- decoding -----

  /** A decoded value, the index behind it, and whether the octets sufficed. */
  datatype Dec<T> = Dec(value: T, ind: nat, ok: bool)

  function RawByte(s: seq<octet>, ind: nat, ok: bool): (r: Dec<octet>)
    ensures r.ok ==> ok && ind < |s|
  {
    if ind >= |s| then Dec(0, ind, false) else Dec(s[ind], ind + 1, ok)
  }

  function DecBytes(w: nat, s: seq<octet>, ind: nat, ok: bool): (r: Dec<nat>)
    ensures r.ok ==> ok
  {
    if w == 0 then Dec(0, ind, ok)
    else
      var h := DecBytes(w - 1, s, ind, ok);
      var b := RawByte(s, h.ind, h.ok);
      Dec(h.value * 256 + b.value, b.ind, b.ok)
  }

  function RawBytes(n: nat, s: seq<octet>, ind: nat, ok: bool): (r: Dec<seq<octet>>)
    ensures r.ok ==> ok
  {
    if ind + n > |s| then Dec([], ind, false) else Dec(s[ind..ind + n], ind + n, ok)
  }

  function AsInt(u: nat, w: nat, signed: bool): int {
    if signed && u >= Pow256(w) / 2 then u - Pow256(w) else u
  }

  function Decode(ty: Ty, s: seq<octet>, ind: nat, ok: bool): (r: Dec<Val>)
    ensures r.ok ==> ok
    decreases ty, 1, 0
  {
    match ty
    case TBool =>
      var b := RawByte(s, ind, ok);
      Dec(VBool(b.value != 0), b.ind, b.ok)
    case TInt(w, signed) =>
      var u := DecBytes(w, s, ind, ok);
      Dec(VInt(AsInt(u.value, w, signed)), u.ind, u.ok)
    case TStr =>
      var n := DecBytes(4, s, ind, ok);
      if !n.ok then Dec(VStr([]), n.ind, false)
      else
        var b := RawBytes(n.value, s, n.ind, n.ok);
        Dec(VStr(b.value), b.ind, b.ok)
    case TVec(_) =>
      var n := DecBytes(4, s, ind, ok);
      var vs := DecodeMany(ty, n.value, s, n.ind, n.ok);
      Dec(VVec(vs.value), vs.ind, vs.ok)
    case TMap(_, _) =>
      var n := DecBytes(4, s, ind, ok);
      var es := DecodePairs(ty, n.value, s, n.ind, n.ok);
      Dec(VMap(es.value), es.ind, es.ok)
  }

  function DecodeOne(ty: Ty, s: seq<octet>, ind: nat, ok: bool): (r: Dec<Val>)
    ensures r.ok ==> ok
    decreases ty, 2, 0
  {
    Decode(ty, s, ind, ok)
  }

  /** The loop pushes n elements whether or not the octets suffice. */
  function DecodeMany(ty: Ty, n: nat, s: seq<octet>, ind: nat, ok: bool): (r: Dec<seq<Val>>)
    requires ty.TVec?
    ensures r.ok ==> ok
    decreases ty, 0, n
  {
    if n == 0 then Dec([], ind, ok)
    else
      var h := DecodeMany(ty, n - 1, s, ind, ok);
      var v := DecodeOne(ty.elem, s, h.ind, h.ok);
      Dec(h.value + [v.value], v.ind, v.ok)
  }

  /** `d[k] = v` on entries in key order. */
  function Assign(es: seq<(Val, Val)>, k: Val, v: Val): seq<(Val, Val)> {
    if es == [] then [(k, v)]
    else
      var last, front := es[|es| - 1], es[..|es| - 1];
      if Less(last.0, k) then es + [(k, v)]
      else if last.0 == k then front + [(k, v)]
      else Assign(front, k, v) + [last]
  }

  function DecodePairs(ty: Ty, n: nat, s: seq<octet>, ind: nat, ok: bool): (r: Dec<seq<(Val, Val)>>)
    requires ty.TMap?
    ensures r.ok ==> ok
    decreases ty, 0, n
  {
    if n == 0 then Dec([], ind, ok)
    else
      var h := DecodePairs(ty, n - 1, s, ind, ok);
      var e := DecodePair(ty, s, h.ind, h.ok);
      Dec(Assign(h.value, e.value.0, e.value.1), e.ind, e.ok)
  }

  function DecodePair(ty: Ty, s: seq<octet>, ind: nat, ok: bool): (r: Dec<(Val, Val)>)
    requires ty.TMap?
    ensures r.ok ==> ok
    decreases ty, 0, 0
  {
    var k := DecodeOne(ty.key, s, ind, ok);
    var v := DecodeOne(ty.val, s, k.ind, k.ok);
    Dec((k.value, v.value), v.ind, v.ok)
  }
}
