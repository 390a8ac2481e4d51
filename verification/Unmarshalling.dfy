/** The buffer values are read from. */
module Unmarshalling {
  import opened Wire
  import opened Codec
  import opened Messages
  import R = RoundTrip

  class Unmarshall {
    var buf: seq<octet>
    var ind: nat
    var ok: bool

    constructor (s: seq<octet>)
      ensures buf == s && ind == 0 && ok
    {
      buf, ind, ok := s, 0, true;
    }

    method RawByte() returns (c: octet)
      modifies `ind, `ok
      ensures Dec(c, ind, ok) == Codec.RawByte(buf, old(ind), old(ok))
    {
      c := 0;
      if ind >= |buf| {
        ok := false;
      } else {
        c := buf[ind];
        ind := ind + 1;
      }
    }

    method RawBytes(n: nat) returns (s: seq<octet>)
      modifies `ind, `ok
      ensures Dec(s, ind, ok) == Codec.RawBytes(n, buf, old(ind), old(ok))
    {
      s := [];
      if ind + n > |buf| {
        ok := false;
      } else {
        s := buf[ind..ind + n];
        ind := ind + n;
      }
    }

    method GetShort() returns (x: nat)
      modifies `ind, `ok
      ensures Dec(x, ind, ok) == DecBytes(2, buf, old(ind), old(ok))
    {
      TwoBytes(buf, ind, ok);
      var h := RawByte();
      var l := RawByte();
      x := h * TWO8 + l;
    }

    method GetWord() returns (x: nat)
      modifies `ind, `ok
      ensures Dec(x, ind, ok) == DecBytes(4, buf, old(ind), old(ok))
    {
      var h := GetShort();
      var c := RawByte();
      var d := RawByte();
      x := h * TWO16 + c * TWO8 + d;
      NextBytes(2, buf, old(ind), old(ok));
      NextBytes(3, buf, old(ind), old(ok));
    }

    method GetLong() returns (x: nat)
      modifies `ind, `ok
      ensures Dec(x, ind, ok) == DecBytes(8, buf, old(ind), old(ok))
    {
      var h := GetWord();
      var l := GetWord();
      x := h * TWO32 + l;
      TwoWords(buf, old(ind), old(ok));
    }

    method Unpack(signed: bool) returns (x: int)
      modifies `ind, `ok
      ensures Dec(x, ind, ok) == Word(buf, old(ind), old(ok), signed)
    {
      var u := GetWord();
      R.FourBytes();
      x := if signed && u >= TWO31 then u - TWO32 else u;
    }

    /** The header, and ok exactly if all of it was there; the index is behind it. */
    method UnpackReqHeader() returns (h: ReqHeader)
      modifies `ind, `ok
      ensures Dec(h, ind, ok) == UnpackedReq(buf, old(ok))
      ensures ok <==> old(ok) && |buf| >= RPC_HEADER_SZ
    {
      ind := 4;
      var xid := Unpack(true);
      var proc := Unpack(true);
      var cltNonce := Unpack(false);
      var srvNonce := Unpack(false);
      var xidRep := Unpack(true);
      h := ReqHeader(xid, proc, cltNonce, srvNonce, xidRep);
      ind := RPC_HEADER_SZ;
      ReqHeaderWhen(buf, old(ok));
    }

    /** The same for a reply, of which twelve octets are enough. */
    method UnpackReplyHeader() returns (h: ReplyHeader)
      modifies `ind, `ok
      ensures Dec(h, ind, ok) == UnpackedReply(buf, old(ok))
      ensures ok <==> old(ok) && |buf| >= 12
    {
      ind := 4;
      var xid := Unpack(true);
      var ret := Unpack(true);
      h := ReplyHeader(xid, ret);
      ind := RPC_HEADER_SZ;
      ReplyHeaderWhen(buf, old(ok));
    }

    /** `take_in`: the other's buffer, from behind the header on, ok exactly if there is
        that much; the other is left empty. */
    method TakeIn(another: Unmarshall)
      requires another != this
      modifies this, another
      ensures buf == old(another.buf) && ind == RPC_HEADER_SZ
      ensures ok <==> |buf| >= RPC_HEADER_SZ
      ensures another.buf == [] && another.ind == 0 && another.ok == old(another.ok)
    {
      buf := another.buf;
      another.buf, another.ind := [], 0;
      ind := RPC_HEADER_SZ;
      ok := |buf| >= RPC_HEADER_SZ;
    }
  }

  /** The part of `got_pdu` that fills in the caller's reply: it is dropped if its header
      is not there; else the caller decodes from where `ReadReply` does. */
  method GotReply(b: seq<octet>, un: Unmarshall) returns (kept: bool, h: ReplyHeader)
    modifies un
    ensures kept <==> |b| >= 12
    ensures h == UnpackedReply(b, true).value
    ensures if kept then un.buf == b && un.ind == RPC_HEADER_SZ && (un.ok <==> |b| >= RPC_HEADER_SZ)
            else un.buf == old(un.buf) && un.ind == old(un.ind) && un.ok == old(un.ok)
  {
    var rep := new Unmarshall(b);
    h := rep.UnpackReplyHeader();
    kept := rep.ok;
    if kept {
      un.TakeIn(rep);
    }
  }

  lemma TwoWords(s: seq<octet>, ind: nat, ok: bool)
    ensures var h := DecBytes(4, s, ind, ok); var l := DecBytes(4, s, h.ind, h.ok);
      DecBytes(8, s, ind, ok) == Dec(h.value * TWO32 + l.value, l.ind, l.ok)
  {
    var h := DecBytes(4, s, ind, ok);
    MoreBytes(4, s, ind, ok, 4);
    R.FourBytes();
  }

  /** Reading w octets and then n more is reading w + n. */
  lemma {:induction false} MoreBytes(w: nat, s: seq<octet>, ind: nat, ok: bool, n: nat)
    ensures var h := DecBytes(w, s, ind, ok); var l := DecBytes(n, s, h.ind, h.ok);
      DecBytes(w + n, s, ind, ok) == Dec(h.value * Pow256(n) + l.value, l.ind, l.ok)
  {
    if n > 0 {
      MoreBytes(w, s, ind, ok, n - 1);
      var h := DecBytes(w, s, ind, ok);
      NextBytes(w + n - 1, s, ind, ok);
      Times256(h.value, Pow256(n - 1), DecBytes(n - 1, s, h.ind, h.ok).value);
    }
  }

  lemma Times256(a: nat, p: nat, b: nat)
    ensures (a * p + b) * 256 == a * (256 * p) + b * 256
  {
  }

  /** The unmarshall operators. */
  method Get(u: Unmarshall, ty: Ty) returns (v: Val)
    requires IsTy(ty)
    modifies u`ind, u`ok
    ensures Dec(v, u.ind, u.ok) == Decode(ty, u.buf, old(u.ind), old(u.ok))
    decreases ty, 1
  {
    match ty
    case TBool =>
      var c := u.RawByte();
      v := VBool(c != 0);
    case TInt(w, signed) =>
      var n := GetInt(u, w, signed);
      v := VInt(n);
    case TStr =>
      var n := u.GetWord();
      v := VStr([]);
      if u.ok {
        var s := u.RawBytes(n);
        v := VStr(s);
      }
    case TVec(_) =>
      var n := u.GetWord();
      var vs := GetAll(u, ty, n);
      v := VVec(vs);
    case TMap(_, _) =>
      var n := u.GetWord();
      var es := GetPairs(u, ty, n);
      v := VMap(es);
  }

  method GetInt(u: Unmarshall, w: nat, signed: bool) returns (n: int)
    requires w == 1 || w == 2 || w == 4 || w == 8
    modifies u`ind, u`ok
    ensures var x := DecBytes(w, u.buf, old(u.ind), old(u.ok)); Dec(n, u.ind, u.ok) == Dec(AsInt(x.value, w, signed), x.ind, x.ok)
  {
    var x: nat;
    if w == 1 {
      x := u.RawByte();
      assert DecBytes(0, u.buf, old(u.ind), old(u.ok)) == Dec(0, old(u.ind), old(u.ok));
    } else if w == 2 {
      x := u.GetShort();
    } else if w == 4 {
      x := u.GetWord();
    } else {
      x := u.GetLong();
    }
    n := AsInt(x, w, signed);
  }

  method GetOne(u: Unmarshall, ty: Ty) returns (v: Val)
    requires IsTy(ty)
    modifies u`ind, u`ok
    ensures Dec(v, u.ind, u.ok) == DecodeOne(ty, u.buf, old(u.ind), old(u.ok))
    decreases ty, 2
  {
    v := Get(u, ty);
  }

  method GetAll(u: Unmarshall, ty: Ty, n: nat) returns (vs: seq<Val>)
    requires IsTy(ty) && ty.TVec?
    modifies u`ind, u`ok
    ensures Dec(vs, u.ind, u.ok) == DecodeMany(ty, n, u.buf, old(u.ind), old(u.ok))
    decreases ty, 0
  {
    vs := [];
    for i := 0 to n
      invariant Dec(vs, u.ind, u.ok) == DecodeMany(ty, i, u.buf, old(u.ind), old(u.ok))
    {
      var z := GetOne(u, ty.elem);
      vs := vs + [z];
    }
  }

  method GetPairs(u: Unmarshall, ty: Ty, n: nat) returns (es: seq<(Val, Val)>)
    requires IsTy(ty) && ty.TMap?
    modifies u`ind, u`ok
    ensures Dec(es, u.ind, u.ok) == DecodePairs(ty, n, u.buf, old(u.ind), old(u.ok))
    decreases ty, 0
  {
    es := [];
    for i := 0 to n
      invariant Dec(es, u.ind, u.ok) == DecodePairs(ty, i, u.buf, old(u.ind), old(u.ok))
    {
      var k := GetOne(u, ty.key);
      var v := GetOne(u, ty.val);
      es := Assign(es, k, v);
    }
  }

  lemma NextBytes(w: nat, s: seq<octet>, ind: nat, ok: bool)
    ensures var h := DecBytes(w, s, ind, ok); var b := Codec.RawByte(s, h.ind, h.ok);
      DecBytes(w + 1, s, ind, ok) == Dec(h.value * 256 + b.value, b.ind, b.ok)
  {
  }

  lemma TwoBytes(s: seq<octet>, ind: nat, ok: bool)
    ensures var h := Codec.RawByte(s, ind, ok); var l := Codec.RawByte(s, h.ind, h.ok);
      DecBytes(2, s, ind, ok) == Dec(h.value * 256 + l.value, l.ind, l.ok)
  {
    assert DecBytes(0, s, ind, ok) == Dec(0, ind, ok);
    NextBytes(0, s, ind, ok);
    NextBytes(1, s, ind, ok);
  }
}
