/** Messages: a header and the values behind it. */
module Messages {
  import opened Wire
  import opened Codec
  import opened RoundTrip

  const RPC_HEADER_SZ := 24
  const DEFAULT_RPC_SZ := 1024

  datatype ReqHeader = ReqHeader(xid: int, proc: int, cltNonce: int, srvNonce: int, xidRep: int)
  datatype ReplyHeader = ReplyHeader(xid: int, ret: int)

  predicate ReqOk(h: ReqHeader) {
    && InRange(h.xid, 4, true) && InRange(h.proc, 4, true) && InRange(h.cltNonce, 4, false)
    && InRange(h.srvNonce, 4, false) && InRange(h.xidRep, 4, true)
  }

  predicate ReplyOk(h: ReplyHeader) {
    InRange(h.xid, 4, true) && InRange(h.ret, 4, true)
  }

  /** `pack` writes the four octets of an int; an unsigned is cast to int first, which
      leaves its octets alone. */
  function Packed(x: int): (s: seq<octet>)
    ensures |s| == 4
  {
    Be(Unsigned(x, 4), 4)
  }

  function ReqOctets(h: ReqHeader): (s: seq<octet>)
    ensures |s| == 20
  {
    Packed(h.xid) + Packed(h.proc) + Packed(h.cltNonce) + Packed(h.srvNonce) + Packed(h.xidRep)
  }

  function ReplyOctets(h: ReplyHeader): (s: seq<octet>)
    ensures |s| == 8
  {
    Packed(h.xid) + Packed(h.ret)
  }

  function EncodeList(tys: seq<Ty>, vs: seq<Val>): seq<octet>
    requires |tys| == |vs|
  {
    if tys == [] then [] else EncodeList(tys[..|tys| - 1], vs[..|vs| - 1]) + EncodeOne(tys[|tys| - 1], vs[|vs| - 1])
  }

  function DecodeList(tys: seq<Ty>, s: seq<octet>, ind: nat, ok: bool): (r: Dec<seq<Val>>)
    ensures r.ok ==> ok
  {
    if tys == [] then Dec([], ind, ok)
    else
      var h := DecodeList(tys[..|tys| - 1], s, ind, ok);
      var v := DecodeOne(tys[|tys| - 1], s, h.ind, h.ok);
      Dec(h.value + [v.value], v.ind, v.ok)
  }

  ghost predicate AllHave(tys: seq<Ty>, vs: seq<Val>) {
    |tys| == |vs| && forall i :: 0 <= i < |tys| ==> IsTy(tys[i]) && Has(tys[i], vs[i])
  }

  lemma {:induction false} ListBack(tys: seq<Ty>, vs: seq<Val>, s: seq<octet>, ind: nat)
    requires AllHave(tys, vs) && At(s, ind, EncodeList(tys, vs))
    ensures DecodeList(tys, s, ind, true) == Dec(vs, ind + |EncodeList(tys, vs)|, true)
  {
    if tys != [] {
      var n := |tys| - 1;
      var front := EncodeList(tys[..n], vs[..n]);
      AtSplit(s, ind, front, EncodeOne(tys[n], vs[n]));
      ListBack(tys[..n], vs[..n], s, ind);
      OneBack(tys[n], vs[n], s, ind + |front|);
      assert vs[..n] + [vs[n]] == vs;
    }
  }

  lemma {:induction false} ListCut(tys: seq<Ty>, vs: seq<Val>, s: seq<octet>, ind: nat)
    requires AllHave(tys, vs) && Cut(s, ind, EncodeList(tys, vs))
    ensures !DecodeList(tys, s, ind, true).ok
  {
    if tys != [] {
      var n := |tys| - 1;
      var front := EncodeList(tys[..n], vs[..n]);
      CutSplit(s, ind, front, EncodeOne(tys[n], vs[n]));
      if Cut(s, ind, front) {
        ListCut(tys[..n], vs[..n], s, ind);
      } else {
        ListBack(tys[..n], vs[..n], s, ind);
        OneCut(tys[n], vs[n], s, ind + |front|);
      }
    }
  }

  predicate OkDone(r: Dec<seq<Val>>, s: seq<octet>) {
    r.ok && r.ind == |s|
  }

  // ----- headers -----

  /** `unpack` of an int or an unsigned. */
  function Word(s: seq<octet>, ind: nat, ok: bool, signed: bool): Dec<int> {
    var u := DecBytes(4, s, ind, ok);
    Dec(AsInt(u.value, 4, signed), u.ind, u.ok)
  }

  /** `unpack_req_header` and `unpack_reply_header`: the first four octets are the length
      of the PDU, and the index ends behind the header whatever happened. */
  function UnpackedReq(s: seq<octet>, ok: bool): Dec<ReqHeader> {
    var a := Word(s, 4, ok, true);
    var b := Word(s, a.ind, a.ok, true);
    var c := Word(s, b.ind, b.ok, false);
    var d := Word(s, c.ind, c.ok, false);
    var e := Word(s, d.ind, d.ok, true);
    Dec(ReqHeader(a.value, b.value, c.value, d.value, e.value), RPC_HEADER_SZ, e.ok)
  }

  function UnpackedReply(s: seq<octet>, ok: bool): Dec<ReplyHeader> {
    var a := Word(s, 4, ok, true);
    var b := Word(s, a.ind, a.ok, true);
    Dec(ReplyHeader(a.value, b.value), RPC_HEADER_SZ, b.ok)
  }

  lemma {:induction false} BytesWhen(w: nat, s: seq<octet>, ind: nat, ok: bool)
    requires w > 0
    ensures DecBytes(w, s, ind, ok).ok <==> ok && ind + w <= |s|
    ensures ok && ind + w <= |s| ==> DecBytes(w, s, ind, ok).ind == ind + w
  {
    if w == 1 {
      assert DecBytes(0, s, ind, ok) == Dec(0, ind, ok);
    } else {
      BytesWhen(w - 1, s, ind, ok);
    }
  }

  lemma WordWhen(s: seq<octet>, ind: nat, ok: bool, signed: bool)
    ensures Word(s, ind, ok, signed).ok <==> ok && ind + 4 <= |s|
    ensures ok && ind + 4 <= |s| ==> Word(s, ind, ok, signed).ind == ind + 4
  {
    BytesWhen(4, s, ind, ok);
  }

  /** A request header is there if and only if the whole header is. */
  lemma ReqHeaderWhen(s: seq<octet>, ok: bool)
    ensures UnpackedReq(s, ok).ok <==> ok && |s| >= RPC_HEADER_SZ
  {
    var a := Word(s, 4, ok, true);
    var b := Word(s, a.ind, a.ok, true);
    var c := Word(s, b.ind, b.ok, false);
    var d := Word(s, c.ind, c.ok, false);
    WordWhen(s, 4, ok, true);
    WordWhen(s, a.ind, a.ok, true);
    WordWhen(s, b.ind, b.ok, false);
    WordWhen(s, c.ind, c.ok, false);
    WordWhen(s, d.ind, d.ok, true);
  }

  /** A reply header is there if and only if its two words are: twelve octets do. */
  lemma ReplyHeaderWhen(s: seq<octet>, ok: bool)
    ensures UnpackedReply(s, ok).ok <==> ok && |s| >= 12
  {
    var a := Word(s, 4, ok, true);
    WordWhen(s, 4, ok, true);
    WordWhen(s, a.ind, a.ok, true);
  }

  /** Twelve octets pass for a reply header, and leave the index past the end. */
  lemma ShortReplyPasses(s: seq<octet>)
    requires |s| == 12
    ensures UnpackedReply(s, true).ok && UnpackedReply(s, true).ind > |s|
  {
    ReplyHeaderWhen(s, true);
  }

  /** An int comes back from its four octets. */
  lemma WordBack(s: seq<octet>, i: nat, x: int, signed: bool)
    requires At(s, i, Packed(x)) && InRange(x, 4, signed)
    ensures Word(s, i, true, signed) == Dec(x, i + 4, true)
  {
    SignBack(x, 4, signed);
    BytesBack(Unsigned(x, 4), 4, s, i);
  }

  lemma ReqHeaderBack(s: seq<octet>, h: ReqHeader)
    requires ReqOk(h) && At(s, 4, ReqOctets(h))
    ensures UnpackedReq(s, true) == Dec(h, RPC_HEADER_SZ, true)
  {
    var a, b, c, d, e := Packed(h.xid), Packed(h.proc), Packed(h.cltNonce), Packed(h.srvNonce), Packed(h.xidRep);
    AtSplit(s, 4, a + b + c + d, e);
    AtSplit(s, 4, a + b + c, d);
    AtSplit(s, 4, a + b, c);
    AtSplit(s, 4, a, b);
    WordBack(s, 4, h.xid, true);
    WordBack(s, 8, h.proc, true);
    WordBack(s, 12, h.cltNonce, false);
    WordBack(s, 16, h.srvNonce, false);
    WordBack(s, 20, h.xidRep, true);
  }

  lemma ReplyHeaderBack(s: seq<octet>, h: ReplyHeader)
    requires ReplyOk(h) && At(s, 4, ReplyOctets(h))
    ensures UnpackedReply(s, true) == Dec(h, RPC_HEADER_SZ, true)
  {
    AtSplit(s, 4, Packed(h.xid), Packed(h.ret));
    WordBack(s, 4, h.xid, true);
    WordBack(s, 8, h.ret, true);
  }

  // ----- whole messages -----

  /** A request: four octets for the length, the header, the arguments. */
  function Request(length: seq<octet>, h: ReqHeader, tys: seq<Ty>, vs: seq<Val>): seq<octet>
    requires |length| == 4 && |tys| == |vs|
  {
    length + ReqOctets(h) + EncodeList(tys, vs)
  }

  /** A reply: four octets for the length, the header, what is left of the room for one,
      the results. */
  function ReplyTo(length: seq<octet>, h: ReplyHeader, rest: seq<octet>, tys: seq<Ty>, vs: seq<Val>): seq<octet>
    requires |length| == 4 && |rest| == 12 && |tys| == |vs|
  {
    length + ReplyOctets(h) + rest + EncodeList(tys, vs)
  }

  /** How a server reads a request: the header, then the arguments. */
  function ReadRequest(tys: seq<Ty>, s: seq<octet>): Dec<seq<Val>> {
    var h := UnpackedReq(s, true);
    DecodeList(tys, s, h.ind, h.ok)
  }

  /** How a client reads a reply: the header, then `take_in`, then the results. A reply
      whose header is not there is dropped. */
  function ReadReply(tys: seq<Ty>, s: seq<octet>): Dec<seq<Val>> {
    DecodeList(tys, s, RPC_HEADER_SZ, UnpackedReply(s, true).ok && |s| >= RPC_HEADER_SZ)
  }

  lemma ContentBack(header: seq<octet>, tys: seq<Ty>, vs: seq<Val>)
    requires |header| == RPC_HEADER_SZ && AllHave(tys, vs)
    ensures var s := header + EncodeList(tys, vs);
      var r := DecodeList(tys, s, RPC_HEADER_SZ, true);
      r.value == vs && OkDone(r, s)
  {
    var s, e := header + EncodeList(tys, vs), EncodeList(tys, vs);
    assert s[RPC_HEADER_SZ..RPC_HEADER_SZ + |e|] == e;
    ListBack(tys, vs, s, RPC_HEADER_SZ);
  }

  /** A request decodes to the header and the arguments that went into it and ends
      okdone. */
  lemma MessageBack(length: seq<octet>, h: ReqHeader, tys: seq<Ty>, vs: seq<Val>)
    requires |length| == 4 && ReqOk(h) && AllHave(tys, vs)
    ensures var s := Request(length, h, tys, vs);
      && UnpackedReq(s, true) == Dec(h, RPC_HEADER_SZ, true)
      && ReadRequest(tys, s).value == vs && OkDone(ReadRequest(tys, s), s)
  {
    var s := Request(length, h, tys, vs);
    assert s[4..24] == ReqOctets(h);
    ReqHeaderBack(s, h);
    ContentBack(length + ReqOctets(h), tys, vs);
  }

  /** The same for a reply. */
  lemma ReplyBack(length: seq<octet>, h: ReplyHeader, rest: seq<octet>, tys: seq<Ty>, vs: seq<Val>)
    requires |length| == 4 && |rest| == 12 && ReplyOk(h) && AllHave(tys, vs)
    ensures var s := ReplyTo(length, h, rest, tys, vs);
      && UnpackedReply(s, true) == Dec(h, RPC_HEADER_SZ, true)
      && ReadReply(tys, s).value == vs && OkDone(ReadReply(tys, s), s)
  {
    var s := ReplyTo(length, h, rest, tys, vs);
    assert s[4..12] == ReplyOctets(h);
    ReplyHeaderBack(s, h);
    ContentBack(length + ReplyOctets(h) + rest, tys, vs);
  }

  /** Content that ends too early, behind a whole header. */
  lemma ContentCut(header: seq<octet>, tys: seq<Ty>, vs: seq<Val>, n: nat)
    requires |header| == RPC_HEADER_SZ && AllHave(tys, vs) && RPC_HEADER_SZ <= n < RPC_HEADER_SZ + |EncodeList(tys, vs)|
    ensures !DecodeList(tys, (header + EncodeList(tys, vs))[..n], RPC_HEADER_SZ, true).ok
  {
    var e := EncodeList(tys, vs);
    var s := (header + e)[..n];
    assert s[RPC_HEADER_SZ..] == e[..n - RPC_HEADER_SZ];
    ListCut(tys, vs, s, RPC_HEADER_SZ);
  }

  /** No strict prefix of a request, header and all, leaves ok true. */
  lemma MessageCut(length: seq<octet>, h: ReqHeader, tys: seq<Ty>, vs: seq<Val>, n: nat)
    requires |length| == 4 && AllHave(tys, vs) && n < |Request(length, h, tys, vs)|
    ensures !ReadRequest(tys, Request(length, h, tys, vs)[..n]).ok
  {
    ReqHeaderWhen(Request(length, h, tys, vs)[..n], true);
    if n >= RPC_HEADER_SZ {
      ContentCut(length + ReqOctets(h), tys, vs, n);
    }
  }

  /** Nor of a reply, thanks to `take_in`. */
  lemma ReplyCut(length: seq<octet>, h: ReplyHeader, rest: seq<octet>, tys: seq<Ty>, vs: seq<Val>, n: nat)
    requires |length| == 4 && |rest| == 12 && AllHave(tys, vs) && n < |ReplyTo(length, h, rest, tys, vs)|
    ensures !ReadReply(tys, ReplyTo(length, h, rest, tys, vs)[..n]).ok
  {
    if n >= RPC_HEADER_SZ {
      ContentCut(length + ReplyOctets(h) + rest, tys, vs, n);
    }
  }

  /** Every value takes at least an octet. */
  lemma PastEnd(ty: Ty, s: seq<octet>, ind: nat, ok: bool)
    requires IsTy(ty) && ind >= |s|
    ensures !DecodeOne(ty, s, ind, ok).ok
  {
    if ty.TInt? {
      BytesWhen(ty.w, s, ind, ok);
    } else {
      BytesWhen(4, s, ind, ok);
    }
  }

  lemma {:induction false} ListPastEnd(tys: seq<Ty>, s: seq<octet>, ind: nat, ok: bool)
    requires tys != [] && (forall i :: 0 <= i < |tys| ==> IsTy(tys[i])) && ind >= |s|
    ensures !DecodeList(tys, s, ind, ok).ok
  {
    var n := |tys| - 1;
    if n == 0 {
      PastEnd(tys[0], s, ind, ok);
    } else {
      ListPastEnd(tys[..n], s, ind, ok);
    }
  }

  /** Without `take_in` a strict prefix of a reply would leave ok true if and only if the
      reply carries no results and is cut behind its two words. */
  lemma ReplyCutWithoutTakeIn(length: seq<octet>, h: ReplyHeader, rest: seq<octet>, tys: seq<Ty>, vs: seq<Val>, n: nat)
    requires |length| == 4 && |rest| == 12 && AllHave(tys, vs) && n < |ReplyTo(length, h, rest, tys, vs)|
    ensures var s := ReplyTo(length, h, rest, tys, vs)[..n];
      DecodeList(tys, s, RPC_HEADER_SZ, UnpackedReply(s, true).ok).ok <==> n >= 12 && tys == []
  {
    var s := ReplyTo(length, h, rest, tys, vs)[..n];
    ReplyHeaderWhen(s, true);
    if n >= RPC_HEADER_SZ {
      ContentCut(length + ReplyOctets(h) + rest, tys, vs, n);
    } else if tys != [] {
      ListPastEnd(tys, s, RPC_HEADER_SZ, UnpackedReply(s, true).ok);
    }
  }
}
