/** What was encoded is decoded again, and nothing less is enough. */
module RoundTrip {
  import opened Wire
  import opened Codec

  /** The octets `e` stand at `ind`. */
  ghost predicate At(s: seq<octet>, ind: nat, e: seq<octet>) {
    ind + |e| <= |s| && s[ind..ind + |e|] == e
  }

  /** The octets end inside `e`, which began at `ind`. */
  ghost predicate Cut(s: seq<octet>, ind: nat, e: seq<octet>) {
    ind <= |s| < ind + |e| && s[ind..] == e[..|s| - ind]
  }

  lemma AtSplit(s: seq<octet>, ind: nat, a: seq<octet>, b: seq<octet>)
    requires At(s, ind, a + b)
    ensures At(s, ind, a) && At(s, ind + |a|, b)
  {
    var t := s[ind..ind + |a + b|];
    assert s[ind..ind + |a|] == t[..|a|];
    assert s[ind + |a|..ind + |a| + |b|] == t[|a|..];
  }

  lemma CutSplit(s: seq<octet>, ind: nat, a: seq<octet>, b: seq<octet>)
    requires Cut(s, ind, a + b)
    ensures Cut(s, ind, a) || (At(s, ind, a) && Cut(s, ind + |a|, b))
  {
    var t := s[ind..];
    if |t| < |a| {
      assert t == a[..|t|];
    } else {
      assert t == a + b[..|t| - |a|];
      assert s[ind..ind + |a|] == t[..|a|];
      assert s[ind + |a|..] == t[|a|..];
    }
  }

  // ----- integers -----

  lemma {:induction false} BytesBack(n: nat, w: nat, s: seq<octet>, ind: nat)
    requires n < Pow256(w) && At(s, ind, Be(n, w))
    ensures DecBytes(w, s, ind, true) == Dec(n, ind + w, true)
  {
    if w > 0 {
      AtSplit(s, ind, Be(n / 256, w - 1), [n % 256]);
      BytesBack(n / 256, w - 1, s, ind);
      assert s[ind + w - 1..ind + w - 1 + 1] == [n % 256];
      assert s[ind + w - 1..ind + w - 1 + 1][0] == s[ind + w - 1];
    }
  }

  lemma {:induction false} BytesCut(n: nat, w: nat, s: seq<octet>, ind: nat)
    requires Cut(s, ind, Be(n, w)) && n < Pow256(w)
    ensures !DecBytes(w, s, ind, true).ok
  {
    if w > 0 {
      CutSplit(s, ind, Be(n / 256, w - 1), [n % 256]);
      if Cut(s, ind, Be(n / 256, w - 1)) {
        BytesCut(n / 256, w - 1, s, ind);
      } else {
        BytesBack(n / 256, w - 1, s, ind);
      }
    }
  }

  lemma SignBack(n: int, w: nat, signed: bool)
    requires InRange(n, w, signed) && w > 0
    ensures AsInt(Unsigned(n, w), w, signed) == n && Unsigned(n, w) < Pow256(w)
  {
    HalfOf(w);
  }

  lemma HalfOf(w: nat)
    requires w > 0
    ensures Pow256(w) == 2 * (Pow256(w) / 2)
  {
    assert Pow256(w) == 2 * (128 * Pow256(w - 1));
  }

  lemma FourBytes()
    ensures Pow256(4) == TWO32
  {
    assert Pow256(0) == 1 && Pow256(1) == 256 && Pow256(2) == 65536;
  }

  // ----- maps -----

  /** The value at a key. */
  function Lookup(es: seq<(Val, Val)>, k: Val): seq<Val> {
    if es == [] then [] else if es[|es| - 1].0 == k then [es[|es| - 1].1] else Lookup(es[..|es| - 1], k)
  }

  /** `Assign` binds the key and leaves every other key alone. */
  lemma {:induction false} AssignBinds(es: seq<(Val, Val)>, k: Val, v: Val, other: Val)
    ensures Lookup(Assign(es, k, v), other) == if other == k then [v] else Lookup(es, other)
  {
    if es != [] {
      var last, front := es[|es| - 1], es[..|es| - 1];
      AssignBinds(front, k, v, other);
      assert (es + [(k, v)])[..|es|] == es;
      assert (front + [(k, v)])[..|front|] == front;
      var a := Assign(front, k, v);
      assert (a + [last])[..|a|] == a;
    }
  }

  lemma AssignLast(es: seq<(Val, Val)>, i: nat)
    requires Ordered(es) && i < |es|
    ensures Assign(es[..i], es[i].0, es[i].1) == es[..i + 1]
  {
    if i > 0 {
      assert Less(es[i - 1].0, es[i].0);
    }
    assert es[..i + 1] == es[..i] + [es[i]];
  }

  // ----- all values -----

  ghost predicate Encoded(ty: Ty, v: Val, s: seq<octet>, ind: nat) {
    IsTy(ty) && Has(ty, v) && At(s, ind, Encode(ty, v))
  }

  /** Decoding gives the value back and stops behind it. */
  lemma {:induction false} Back(ty: Ty, v: Val, s: seq<octet>, ind: nat)
    requires Encoded(ty, v, s, ind)
    ensures Decode(ty, s, ind, true) == Dec(v, ind + |Encode(ty, v)|, true)
    decreases ty, 1, 0
  {
    FourBytes();
    match ty
    case TBool =>
      assert s[ind..ind + 1][0] == s[ind];
    case TInt(w, signed) =>
      SignBack(v.n, w, signed);
      BytesBack(Unsigned(v.n, w), w, s, ind);
    case TStr =>
      AtSplit(s, ind, Be(|v.s|, 4), v.s);
      BytesBack(|v.s|, 4, s, ind);
    case TVec(_) =>
      AtSplit(s, ind, Be(|v.vs|, 4), EncodeAll(ty, v.vs));
      BytesBack(|v.vs|, 4, s, ind);
      ManyBack(ty, v.vs, s, ind + 4);
    case TMap(_, _) =>
      AtSplit(s, ind, Be(|v.es|, 4), EncodePairs(ty, v.es));
      BytesBack(|v.es|, 4, s, ind);
      assert v.es[..|v.es|] == v.es;
      PairsBack(ty, v.es, |v.es|, s, ind + 4);
  }

  lemma {:induction false} OneBack(ty: Ty, v: Val, s: seq<octet>, ind: nat)
    requires IsTy(ty) && Has(ty, v) && At(s, ind, EncodeOne(ty, v))
    ensures DecodeOne(ty, s, ind, true) == Dec(v, ind + |EncodeOne(ty, v)|, true)
    decreases ty, 2, 0
  {
    Back(ty, v, s, ind);
  }

  lemma {:induction false} ManyBack(ty: Ty, vs: seq<Val>, s: seq<octet>, ind: nat)
    requires IsTy(ty) && ty.TVec? && (forall i {:trigger Has(ty.elem, vs[i])} :: 0 <= i < |vs| ==> Has(ty.elem, vs[i])) && At(s, ind, EncodeAll(ty, vs))
    ensures DecodeMany(ty, |vs|, s, ind, true) == Dec(vs, ind + |EncodeAll(ty, vs)|, true)
    decreases ty, 0, |vs|
  {
    if vs != [] {
      var front, last := vs[..|vs| - 1], vs[|vs| - 1];
      AtSplit(s, ind, EncodeAll(ty, front), EncodeOne(ty.elem, last));
      assert forall i {:trigger Has(ty.elem, front[i])} :: 0 <= i < |front| ==> Has(ty.elem, front[i]) by {
        forall i | 0 <= i < |front| ensures Has(ty.elem, front[i]) {
          assert Has(ty.elem, vs[i]);
        }
      }
      ManyBack(ty, front, s, ind);
      OneBack(ty.elem, last, s, ind + |EncodeAll(ty, front)|);
      assert front + [last] == vs;
    }
  }

  lemma {:induction false} PairBack(ty: Ty, e: (Val, Val), s: seq<octet>, ind: nat)
    requires IsTy(ty) && ty.TMap? && PairOk(ty, e) && At(s, ind, EncodePair(ty, e))
    ensures DecodePair(ty, s, ind, true) == Dec(e, ind + |EncodePair(ty, e)|, true)
    decreases ty, 0, 0
  {
    AtSplit(s, ind, EncodeOne(ty.key, e.0), EncodeOne(ty.val, e.1));
    OneBack(ty.key, e.0, s, ind);
    OneBack(ty.val, e.1, s, ind + |EncodeOne(ty.key, e.0)|);
  }

  lemma {:induction false} PairsBack(ty: Ty, es: seq<(Val, Val)>, n: nat, s: seq<octet>, ind: nat)
    requires IsTy(ty) && ty.TMap? && n <= |es| && Ordered(es) && At(s, ind, EncodePairs(ty, es[..n]))
    requires forall i {:trigger PairOk(ty, es[i])} :: 0 <= i < |es| ==> PairOk(ty, es[i])
    ensures DecodePairs(ty, n, s, ind, true) == Dec(es[..n], ind + |EncodePairs(ty, es[..n])|, true)
    decreases ty, 0, n
  {
    if n > 0 {
      PairsAt(ty, es, n, s, ind);
      PairsBack(ty, es, n - 1, s, ind);
      assert PairOk(ty, es[n - 1]);
      var at := ind + |EncodePairs(ty, es[..n - 1])|;
      PairBack(ty, es[n - 1], s, at);
      PairsOn(ty, es, n, s, ind, at, at + |EncodePair(ty, es[n - 1])|);
    }
  }

  lemma PairsOn(ty: Ty, es: seq<(Val, Val)>, n: nat, s: seq<octet>, ind: nat, at: nat, end: nat)
    requires ty.TMap? && 0 < n <= |es| && Ordered(es)
    requires DecodePairs(ty, n - 1, s, ind, true) == Dec(es[..n - 1], at, true)
    requires DecodePair(ty, s, at, true) == Dec(es[n - 1], end, true)
    ensures DecodePairs(ty, n, s, ind, true) == Dec(es[..n], end, true)
  {
    PairsStep(ty, n, s, ind);
    AssignLast(es, n - 1);
  }

  /** One more pair is decoded and assigned. */
  lemma PairsStep(ty: Ty, n: nat, s: seq<octet>, ind: nat)
    requires ty.TMap? && n > 0
    ensures var h := DecodePairs(ty, n - 1, s, ind, true); var e := DecodePair(ty, s, h.ind, h.ok);
      DecodePairs(ty, n, s, ind, true) == Dec(Assign(h.value, e.value.0, e.value.1), e.ind, e.ok)
  {
  }

  lemma PairsAt(ty: Ty, es: seq<(Val, Val)>, n: nat, s: seq<octet>, ind: nat)
    requires ty.TMap? && 0 < n <= |es| && At(s, ind, EncodePairs(ty, es[..n]))
    ensures var front, last := EncodePairs(ty, es[..n - 1]), EncodePair(ty, es[n - 1]);
      && At(s, ind, front) && At(s, ind + |front|, last) && |EncodePairs(ty, es[..n])| == |front| + |last|
  {
    assert es[..n][..n - 1] == es[..n - 1];
    AtSplit(s, ind, EncodePairs(ty, es[..n - 1]), EncodePair(ty, es[n - 1]));
  }

  /** A strict prefix of an encoding does not decode. */
  lemma {:induction false} CutFails(ty: Ty, v: Val, s: seq<octet>, ind: nat)
    requires IsTy(ty) && Has(ty, v) && Cut(s, ind, Encode(ty, v))
    ensures !Decode(ty, s, ind, true).ok
    decreases ty, 1, 0
  {
    if ty.TVec? {
      VecCut(ty, v, s, ind);
    } else if ty.TMap? {
      MapCut(ty, v, s, ind);
    } else {
      PlainCut(ty, v, s, ind);
    }
  }

  lemma PlainCut(ty: Ty, v: Val, s: seq<octet>, ind: nat)
    requires IsTy(ty) && Has(ty, v) && Cut(s, ind, Encode(ty, v)) && !ty.TVec? && !ty.TMap?
    ensures !Decode(ty, s, ind, true).ok
  {
    match ty
    case TBool =>
    case TInt(w, signed) =>
      SignBack(v.n, w, signed);
      BytesCut(Unsigned(v.n, w), w, s, ind);
    case TStr => LengthCut(|v.s|, v.s, s, ind);
  }

  lemma {:induction false} VecCut(ty: Ty, v: Val, s: seq<octet>, ind: nat)
    requires IsTy(ty) && ty.TVec? && Has(ty, v) && Cut(s, ind, Encode(ty, v))
    ensures !Decode(ty, s, ind, true).ok
    decreases ty, 0, |v.vs| + 1
  {
    LengthCut(|v.vs|, EncodeAll(ty, v.vs), s, ind);
    assert v.vs[..|v.vs|] == v.vs;
    if DecBytes(4, s, ind, true).ok {
      ManyCut(ty, v.vs, |v.vs|, s, ind + 4);
    }
  }

  lemma {:induction false} MapCut(ty: Ty, v: Val, s: seq<octet>, ind: nat)
    requires IsTy(ty) && ty.TMap? && Has(ty, v) && Cut(s, ind, Encode(ty, v))
    ensures !Decode(ty, s, ind, true).ok
    decreases ty, 0, |v.es| + 1
  {
    LengthCut(|v.es|, EncodePairs(ty, v.es), s, ind);
    assert v.es[..|v.es|] == v.es;
    if DecBytes(4, s, ind, true).ok {
      PairsCut(ty, v.es, |v.es|, s, ind + 4);
    }
  }

  /** Either the length is cut, or it is read and the rest is cut. */
  lemma LengthCut(n: nat, rest: seq<octet>, s: seq<octet>, ind: nat)
    requires n < TWO32 && Cut(s, ind, Be(n, 4) + rest)
    ensures !DecBytes(4, s, ind, true).ok || (DecBytes(4, s, ind, true) == Dec(n, ind + 4, true) && Cut(s, ind + 4, rest))
  {
    FourBytes();
    CutSplit(s, ind, Be(n, 4), rest);
    if Cut(s, ind, Be(n, 4)) {
      BytesCut(n, 4, s, ind);
    } else {
      BytesBack(n, 4, s, ind);
    }
  }

  lemma {:induction false} OneCut(ty: Ty, v: Val, s: seq<octet>, ind: nat)
    requires IsTy(ty) && Has(ty, v) && Cut(s, ind, EncodeOne(ty, v))
    ensures !DecodeOne(ty, s, ind, true).ok
    decreases ty, 2, 0
  {
    CutFails(ty, v, s, ind);
  }

  lemma {:induction false} ManyCut(ty: Ty, vs: seq<Val>, n: nat, s: seq<octet>, ind: nat)
    requires IsTy(ty) && ty.TVec? && n <= |vs| && Cut(s, ind, EncodeAll(ty, vs[..n]))
    requires forall i {:trigger Has(ty.elem, vs[i])} :: 0 <= i < |vs| ==> Has(ty.elem, vs[i])
    ensures !DecodeMany(ty, n, s, ind, true).ok
    decreases ty, 0, n
  {
    if n > 0 {
      var front := vs[..n - 1];
      assert vs[..n][..n - 1] == front;
      CutSplit(s, ind, EncodeAll(ty, front), EncodeOne(ty.elem, vs[n - 1]));
      if Cut(s, ind, EncodeAll(ty, front)) {
        ManyCut(ty, vs, n - 1, s, ind);
      } else {
        forall i | 0 <= i < |front| ensures Has(ty.elem, front[i]) {
          assert Has(ty.elem, vs[i]);
        }
        ManyBack(ty, front, s, ind);
        OneCut(ty.elem, vs[n - 1], s, ind + |EncodeAll(ty, front)|);
      }
    }
  }

  lemma {:induction false} PairCut(ty: Ty, e: (Val, Val), s: seq<octet>, ind: nat)
    requires IsTy(ty) && ty.TMap? && PairOk(ty, e) && Cut(s, ind, EncodePair(ty, e))
    ensures !DecodePair(ty, s, ind, true).ok
    decreases ty, 0, 0, 0
  {
    CutSplit(s, ind, EncodeOne(ty.key, e.0), EncodeOne(ty.val, e.1));
    if Cut(s, ind, EncodeOne(ty.key, e.0)) {
      OneCut(ty.key, e.0, s, ind);
    } else {
      OneBack(ty.key, e.0, s, ind);
      OneCut(ty.val, e.1, s, ind + |EncodeOne(ty.key, e.0)|);
    }
  }

  /** The last pair must decode too. */
  lemma LastMust(ty: Ty, n: nat, s: seq<octet>, ind: nat)
    requires ty.TMap? && n > 0
    ensures var h := DecodePairs(ty, n - 1, s, ind, true); DecodePairs(ty, n, s, ind, true).ok == DecodePair(ty, s, h.ind, h.ok).ok
  {
  }

  lemma WhereCut(ty: Ty, es: seq<(Val, Val)>, n: nat, s: seq<octet>, ind: nat)
    requires ty.TMap? && 0 < n <= |es| && Cut(s, ind, EncodePairs(ty, es[..n]))
    ensures var front := EncodePairs(ty, es[..n - 1]);
      Cut(s, ind, front) || (At(s, ind, front) && Cut(s, ind + |front|, EncodePair(ty, es[n - 1])))
  {
    assert es[..n][..n - 1] == es[..n - 1];
    CutSplit(s, ind, EncodePairs(ty, es[..n - 1]), EncodePair(ty, es[n - 1]));
  }

  lemma PairsGot(ty: Ty, es: seq<(Val, Val)>, n: nat, s: seq<octet>, ind: nat)
    requires IsTy(ty) && ty.TMap? && n <= |es| && Ordered(es) && At(s, ind, EncodePairs(ty, es[..n]))
    requires forall i {:trigger PairOk(ty, es[i])} :: 0 <= i < |es| ==> PairOk(ty, es[i])
    ensures var h := DecodePairs(ty, n, s, ind, true); h.ok && h.ind == ind + |EncodePairs(ty, es[..n])|
  {
    PairsBack(ty, es, n, s, ind);
  }

  lemma {:induction false} PairsCut(ty: Ty, es: seq<(Val, Val)>, n: nat, s: seq<octet>, ind: nat)
    requires IsTy(ty) && ty.TMap? && n <= |es| && Ordered(es) && Cut(s, ind, EncodePairs(ty, es[..n]))
    requires forall i {:trigger PairOk(ty, es[i])} :: 0 <= i < |es| ==> PairOk(ty, es[i])
    ensures !DecodePairs(ty, n, s, ind, true).ok
    decreases ty, 0, n, 0
  {
    if n > 0 {
      WhereCut(ty, es, n, s, ind);
      var front := EncodePairs(ty, es[..n - 1]);
      LastMust(ty, n, s, ind);
      if Cut(s, ind, front) {
        PairsCut(ty, es, n - 1, s, ind);
      } else {
        assert PairOk(ty, es[n - 1]);
        PairCut(ty, es[n - 1], s, ind + |front|);
        PairsGot(ty, es, n - 1, s, ind);
      }
    }
  }
}
