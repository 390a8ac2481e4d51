/** The growing buffer values are written into. */
module Marshalling {
  import opened Wire
  import opened Codec
  import opened Messages
  import R = RoundTrip

  class Marshall {
    var buf: array<octet>
    var capa: nat
    var ind: nat

    /** The index never passes the capacity. */
    ghost predicate Valid()
      reads this
    {
      buf.Length == capa && ind <= capa && capa >= DEFAULT_RPC_SZ
    }

    ghost function Octets(): seq<octet>
      requires Valid()
      reads this, buf
    {
      buf[..ind]
    }

    constructor ()
      ensures Valid() && ind == 24 && capa == 1024 && fresh(buf)
    {
      buf := new octet[DEFAULT_RPC_SZ];
      capa, ind := DEFAULT_RPC_SZ, RPC_HEADER_SZ;
    }

    /** realloc */
    method Grow(n: nat)
      requires Valid() && n >= capa
      modifies this
      ensures Valid() && capa == n && ind == old(ind) && fresh(buf)
      ensures buf[..old(capa)] == old(buf[..])
    {
      var b := new octet[n];
      forall i | 0 <= i < capa {
        b[i] := buf[i];
      }
      buf, capa := b, n;
    }

    /** The buffer is as it was but for the n octets written at the index. */
    twostate predicate Wrote(n: nat)
      reads this, buf
    {
      && old(Valid()) && Valid() && ind == old(ind) + n && (buf == old(buf) || fresh(buf))
      && capa >= old(capa) && buf[..old(ind)] == old(buf[..ind])
      && (old(ind) + n <= old(capa) ==> buf == old(buf) && forall k :: ind <= k < capa ==> buf[k] == old(buf[k]))
    }

    /** Doubles when full. */
    method RawByte(x: octet)
      requires Valid()
      modifies this, buf
      ensures Wrote(1) && Octets() == old(Octets()) + [x]
      ensures capa == if old(ind) < old(capa) then old(capa) else 2 * old(capa)
    {
      if ind >= capa {
        Grow(2 * capa);
      }
      buf[ind] := x;
      ind := ind + 1;
    }

    /** Doubles, or grows by n if n is at least the capacity. */
    method RawBytes(p: seq<octet>)
      requires Valid()
      modifies this, buf
      ensures Wrote(|p|) && Octets() == old(Octets()) + p
      ensures capa == if old(ind) + |p| <= old(capa) then old(capa)
                      else if |p| < old(capa) then 2 * old(capa) else old(capa) + |p|
    {
      if ind + |p| > capa {
        Grow(if capa > |p| then 2 * capa else capa + |p|);
      }
      Copy(p);
      ind := ind + |p|;
    }

    /** memcpy behind the index */
    method Copy(p: seq<octet>)
      requires Valid() && ind + |p| <= capa
      modifies buf
      ensures Valid() && buf[..ind + |p|] == old(buf[..ind]) + p
      ensures forall k :: ind + |p| <= k < capa ==> buf[k] == old(buf[k])
    {
      forall i | 0 <= i < |p| {
        buf[ind + i] := p[i];
      }
      assert buf[..ind] == old(buf[..ind]);
      assert buf[ind..ind + |p|] == p;
      assert buf[..ind + |p|] == buf[..ind] + buf[ind..ind + |p|];
    }

    method RawTwo(a: octet, b: octet)
      requires Valid()
      modifies this, buf
      ensures Wrote(2) && Octets() == old(Octets()) + [a, b]
    {
      RawByte(a);
      RawByte(b);
    }

    method PutShort(x: nat)
      requires Valid() && x < TWO16
      modifies this, buf
      ensures Wrote(2) && Octets() == old(Octets()) + Be(x, 2)
    {
      TwoOctets(x);
      RawTwo(x / TWO8, x % TWO8);
    }

    method PutWord(x: nat)
      requires Valid() && x < TWO32
      modifies this, buf
      ensures Wrote(4) && Octets() == old(Octets()) + Be(x, 4)
    {
      FourOctets(x);
      RawTwo(x / TWO24 % TWO8, x / TWO16 % TWO8);
      RawTwo(x / TWO8 % TWO8, x % TWO8);
    }

    method PutLong(x: nat)
      requires Valid() && x < TWO32 * TWO32
      modifies this, buf
      ensures Wrote(8) && Octets() == old(Octets()) + Be(x, 8)
    {
      EightOctets(x);
      PutWord(x / TWO32);
      PutWord(x % TWO32);
    }

    method Pack(x: int)
      requires Valid() && (InRange(x, 4, true) || InRange(x, 4, false))
      modifies this, buf
      ensures Wrote(4) && Octets() == old(Octets()) + Packed(x)
    {
      R.FourBytes();
      PutWord(if x >= 0 then x else x + TWO32);
    }

    /** The header goes between the four octets of the length and the content, and
        nothing else changes. */
    method PackReqHeader(h: ReqHeader)
      requires Valid() && ind >= RPC_HEADER_SZ && ReqOk(h)
      modifies this, buf
      ensures Valid() && ind == old(ind) && buf == old(buf)
      ensures buf[4..RPC_HEADER_SZ] == ReqOctets(h)
      ensures buf[..4] == old(buf[..4]) && buf[RPC_HEADER_SZ..] == old(buf[RPC_HEADER_SZ..])
    {
      R.FourBytes();
      var saved := ind;
      ind := 4;
      Pack(h.xid);
      Pack(h.proc);
      Pack(h.cltNonce);
      Pack(h.srvNonce);
      Pack(h.xidRep);
      assert buf[..RPC_HEADER_SZ] == old(buf[..4]) + ReqOctets(h);
      assert buf[4..RPC_HEADER_SZ] == buf[..RPC_HEADER_SZ][4..];
      assert buf[..4] == buf[..RPC_HEADER_SZ][..4];
      ind := saved;
    }

    method PackReplyHeader(h: ReplyHeader)
      requires Valid() && ind >= RPC_HEADER_SZ && ReplyOk(h)
      modifies this, buf
      ensures Valid() && ind == old(ind) && buf == old(buf)
      ensures buf[4..12] == ReplyOctets(h)
      ensures buf[..4] == old(buf[..4]) && buf[12..] == old(buf[12..])
    {
      R.FourBytes();
      var saved := ind;
      ind := 4;
      Pack(h.xid);
      Pack(h.ret);
      assert buf[..12] == old(buf[..4]) + ReplyOctets(h);
      assert buf[4..12] == buf[..12][4..];
      assert buf[..4] == buf[..12][..4];
      ind := saved;
    }
  }

  /** The marshall operators: the encoding is put behind what is there. */
  method Put(m: Marshall, ty: Ty, v: Val)
    requires m.Valid() && IsTy(ty) && Has(ty, v)
    modifies m, m.buf
    ensures m.Valid() && (m.buf == old(m.buf) || fresh(m.buf))
    ensures m.Octets() == old(m.Octets()) + Encode(ty, v)
    decreases ty, 1
  {
    R.FourBytes();
    match ty
    case TBool =>
      m.RawByte(if v.b then 1 else 0);
    case TInt(w, signed) =>
      PutInt(m, v.n, w, signed);
    case TStr =>
      m.PutWord(|v.s|);
      m.RawBytes(v.s);
    case TVec(_) =>
      PutAll(m, ty, v.vs);
    case TMap(_, _) =>
      PutPairs(m, ty, v.es);
  }

  method PutInt(m: Marshall, n: int, w: nat, signed: bool)
    requires m.Valid() && IsTy(TInt(w, signed)) && InRange(n, w, signed)
    modifies m, m.buf
    ensures m.Valid() && (m.buf == old(m.buf) || fresh(m.buf))
    ensures m.Octets() == old(m.Octets()) + Be(Unsigned(n, w), w)
  {
    Sizes();
    R.SignBack(n, w, signed);
    var u := Unsigned(n, w);
    if w == 1 {
      assert Be(u, 1) == [u] by {
        assert Be(u / 256, 0) == [];
      }
      m.RawByte(u);
    } else if w == 2 {
      m.PutShort(u);
    } else if w == 4 {
      m.PutWord(u);
    } else {
      m.PutLong(u);
    }
  }

  lemma Sizes()
    ensures Pow256(1) == 256 && Pow256(2) == TWO16 && Pow256(4) == TWO32 && Pow256(8) == TWO32 * TWO32
  {
    assert Pow256(3) == TWO24;
    assert Pow256(5) == 256 * TWO32;
    assert Pow256(6) == TWO16 * TWO32;
    assert Pow256(7) == TWO24 * TWO32;
  }

  method PutOne(m: Marshall, ty: Ty, v: Val)
    requires m.Valid() && IsTy(ty) && Has(ty, v)
    modifies m, m.buf
    ensures m.Valid() && (m.buf == old(m.buf) || fresh(m.buf))
    ensures m.Octets() == old(m.Octets()) + EncodeOne(ty, v)
    decreases ty, 2
  {
    Put(m, ty, v);
  }

  method PutAll(m: Marshall, ty: Ty, vs: seq<Val>)
    requires m.Valid() && IsTy(ty) && ty.TVec? && |vs| < TWO32 && (forall i {:trigger Has(ty.elem, vs[i])} :: 0 <= i < |vs| ==> Has(ty.elem, vs[i]))
    modifies m, m.buf
    ensures m.Valid() && (m.buf == old(m.buf) || fresh(m.buf))
    ensures m.Octets() == old(m.Octets()) + (Be(|vs|, 4) + EncodeAll(ty, vs))
    decreases ty, 0
  {
    m.PutWord(|vs|);
    for i := 0 to |vs|
      invariant m.Valid() && (m.buf == old(m.buf) || fresh(m.buf))
      invariant m.Octets() == old(m.Octets()) + (Be(|vs|, 4) + EncodeAll(ty, vs[..i]))
    {
      assert Has(ty.elem, vs[i]);
      OneMore(ty, vs, i);
      Behind(old(m.Octets()), Be(|vs|, 4), EncodeAll(ty, vs[..i]), EncodeOne(ty.elem, vs[i]));
      PutOne(m, ty.elem, vs[i]);
    }
    assert vs[..|vs|] == vs;
  }

  method PutPairs(m: Marshall, ty: Ty, es: seq<(Val, Val)>)
    requires m.Valid() && IsTy(ty) && ty.TMap? && |es| < TWO32
    requires forall i {:trigger PairOk(ty, es[i])} :: 0 <= i < |es| ==> PairOk(ty, es[i])
    modifies m, m.buf
    ensures m.Valid() && (m.buf == old(m.buf) || fresh(m.buf))
    ensures m.Octets() == old(m.Octets()) + (Be(|es|, 4) + EncodePairs(ty, es))
    decreases ty, 0, 1
  {
    m.PutWord(|es|);
    for i := 0 to |es|
      invariant m.Valid() && (m.buf == old(m.buf) || fresh(m.buf))
      invariant m.Octets() == old(m.Octets()) + (Be(|es|, 4) + EncodePairs(ty, es[..i]))
    {
      assert PairOk(ty, es[i]);
      OnePairMore(ty, es, i);
      Behind(old(m.Octets()), Be(|es|, 4), EncodePairs(ty, es[..i]), EncodePair(ty, es[i]));
      PutPair(m, ty, es[i]);
    }
    assert es[..|es|] == es;
  }

  lemma OneMore(ty: Ty, vs: seq<Val>, i: nat)
    requires ty.TVec? && i < |vs|
    ensures EncodeAll(ty, vs[..i + 1]) == EncodeAll(ty, vs[..i]) + EncodeOne(ty.elem, vs[i])
  {
    assert vs[..i + 1][..i] == vs[..i];
  }

  lemma OnePairMore(ty: Ty, es: seq<(Val, Val)>, i: nat)
    requires ty.TMap? && i < |es|
    ensures EncodePairs(ty, es[..i + 1]) == EncodePairs(ty, es[..i]) + EncodePair(ty, es[i])
  {
    assert es[..i + 1][..i] == es[..i];
  }

  lemma Behind(o: seq<octet>, n: seq<octet>, x: seq<octet>, y: seq<octet>)
    ensures o + (n + x) + y == o + (n + (x + y))
  {
  }

  method PutPair(m: Marshall, ty: Ty, e: (Val, Val))
    requires m.Valid() && IsTy(ty) && ty.TMap? && PairOk(ty, e)
    modifies m, m.buf
    ensures m.Valid() && (m.buf == old(m.buf) || fresh(m.buf))
    ensures m.Octets() == old(m.Octets()) + EncodePair(ty, e)
    decreases ty, 0, 0
  {
    PutOne(m, ty.key, e.0);
    PutOne(m, ty.val, e.1);
  }

  lemma TwoOctets(x: nat)
    requires x < TWO16
    ensures Be(x, 2) == [x / TWO8, x % TWO8]
  {
    assert Be(x / TWO8, 1) == Be(x / TWO8 / TWO8, 0) + [x / TWO8 % TWO8];
  }

  lemma EightOctets(x: nat)
    ensures Be(x, 8) == Be(x / TWO32, 4) + Be(x % TWO32, 4)
  {
    var a, b, c, d := x / TWO8, x / TWO16, x / TWO24, x / TWO32;
    Quotients(x);
    assert Be(x, 8) == Be(a, 7) + [x % TWO8] && Be(a, 7) == Be(b, 6) + [a % TWO8];
    assert Be(b, 6) == Be(c, 5) + [b % TWO8] && Be(c, 5) == Be(d, 4) + [c % TWO8];
    FourOctets(x % TWO32);
    LowOctets(x / TWO32, x % TWO32);
  }

  lemma Quotients(x: nat)
    ensures x / TWO8 / TWO8 == x / TWO16 && x / TWO16 / TWO8 == x / TWO24 && x / TWO24 / TWO8 == x / TWO32
  {
  }

  lemma LowOctets(d: nat, r: nat)
    requires r < TWO32
    ensures var x := d * TWO32 + r;
      && x % TWO8 == r % TWO8 && x / TWO8 % TWO8 == r / TWO8 % TWO8
      && x / TWO16 % TWO8 == r / TWO16 % TWO8 && x / TWO24 % TWO8 == r / TWO24 % TWO8
  {
    LowestOctet(d, r);
    LowOctet(d, r, TWO8, TWO24);
    LowOctet(d, r, TWO16, TWO16);
    LowOctet(d, r, TWO24, TWO8);
  }

  lemma LowestOctet(d: nat, r: nat)
    ensures (d * TWO32 + r) % TWO8 == r % TWO8
  {
    Shifted(d * TWO24, r);
  }

  lemma {:induction false} Shifted(k: nat, r: nat)
    ensures (TWO8 * k + r) % TWO8 == r % TWO8
  {
    if k > 0 {
      Shifted(k - 1, r);
      assert TWO8 * k + r == TWO8 * (k - 1) + r + TWO8;
    }
  }

  lemma LowOctet(d: nat, r: nat, m: nat, k: nat)
    requires (m == TWO8 && k == TWO24) || (m == TWO16 && k == TWO16) || (m == TWO24 && k == TWO8)
    ensures (d * TWO32 + r) / m % TWO8 == r / m % TWO8
  {
    assert (d * TWO32 + r) / m == d * k + r / m;
  }
}
