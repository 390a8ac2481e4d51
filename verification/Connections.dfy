/** The connection object. What the socket calls return comes in as arguments. */
module Connections {
  import opened Prelude
  import opened Wire
  import opened Framing

  /** A length below four is announced where one is read. */
  predicate TooSmall(i: In, size: seq<octet>) {
    i.buf.None? && |size| == 4 && Signed32(size) < 4
  }

  class Connection {
    var wbuf: Option<PDU>
    var wsz: int
    var wsolong: int
    var rbuf: Option<PDU>
    var rsz: nat
    var rsolong: nat
    var dead: bool

    ghost function OutView(): Out
      reads this
    {
      Out(wbuf, wsolong, dead)
    }

    ghost function InView(): In
      reads this
    {
      In(rbuf, rsz, rsolong, dead)
    }

    /** A PDU in hand is one that may be sent, and its length is noted until a write
        error. */
    ghost predicate Valid()
      reads this
    {
      && (wbuf.None? ==> wsz == 0 && wsolong == 0)
      && (wbuf.Some? ==> Sendable(wbuf.value) && (if wsolong >= 0 then wsolong <= wsz == |wbuf.value| else wsolong == -1 && wsz == 0 && dead))
      && (rbuf.None? ==> rsz == 0 && rsolong == 0)
      && (rbuf.Some? ==> 4 <= rsolong == |rbuf.value| <= rsz)
    }

    constructor ()
      ensures Valid() && OutView() == IDLE_OUT && InView() == IDLE_IN
    {
      wbuf, wsz, wsolong, rbuf, rsz, rsolong, dead := None, 0, 0, None, 0, 0, false;
    }

    /** `writepdu`: `n` is what write returned, `again` whether errno was EAGAIN. The
        caller marks the connection dead if the result is false. */
    method WritePdu(n: int, again: bool) returns (ok: bool, octets: seq<octet>)
      requires Valid() && wbuf.Some? && wsolong >= 0 && n <= wsz - wsolong
      modifies `wbuf, `wsz, `wsolong
      ensures ok <==> old(wsolong) == old(wsz) || n >= 0 || again
      ensures ok ==> Valid() && (OutView(), octets) == Wrote(old(OutView()), if n < 0 then 0 else n)
      ensures !ok ==> OutView().(dead := true) == WriteFailed(old(OutView())) && wsz == 0
    {
      octets := [];
      if wsolong == wsz {
        assert wbuf.value[wsolong..wsolong] == [];
        return true, [];
      }
      if wsolong == 0 {
        FrameTwice(wbuf.value);
        wbuf := Some(Frame(wbuf.value));
      }
      if n < 0 {
        assert wbuf.value[wsolong..wsolong] == [];
        if !again {
          wsolong, wsz := -1, 0;
        }
        return again, [];
      }
      octets := wbuf.value[wsolong..wsolong + n];
      wsolong := wsolong + n;
      return true, octets;
    }

    /** `send` up to its wait for completion, entered when no other PDU is in hand:
        refused on a dead connection. */
    method SendBegins(b: PDU, n: int, again: bool) returns (taken: bool, octets: seq<octet>)
      requires Valid() && wbuf.None? && Sendable(b) && n <= |b|
      modifies this
      ensures Valid() && taken == !old(dead)
      ensures InView().(dead := old(dead)) == old(InView())
      ensures !taken ==> OutView() == old(OutView()) && octets == []
      ensures taken && (n >= 0 || again) ==>
                (OutView(), octets) == Wrote(Take(old(OutView()), b), if n < 0 then 0 else n)
      ensures taken && !(n >= 0 || again) ==> OutView() == WriteFailed(Take(old(OutView()), b)) && octets == []
    {
      if dead {
        return false, [];
      }
      wbuf, wsz, wsolong := Some(b), |b|, 0;
      var ok;
      ok, octets := WritePdu(n, again);
      if !ok {
        dead, octets := true, [];
      }
      taken := true;
    }

    /** The rest of `send`, when the connection is dead or all is written. */
    method SendEnds() returns (ret: bool)
      requires Valid() && wbuf.Some? && (dead || wsolong == wsz)
      modifies this
      ensures Valid() && OutView() == Finish(old(OutView())) && InView() == old(InView())
      ensures ret <==> !old(dead) && old(wsolong) == |old(wbuf).value|
    {
      ret := !dead && wsolong == wsz;
      wsolong, wsz := 0, 0;
      wbuf := None;
    }

    /** `write_cb`. */
    method WriteCb(n: int, again: bool) returns (octets: seq<octet>)
      requires Valid() && !dead && (wbuf.Some? ==> n <= wsz - wsolong)
      modifies this
      ensures Valid() && InView().(dead := old(dead)) == old(InView())
      ensures old(wbuf).None? ==> OutView() == old(OutView()) && octets == []
      ensures old(wbuf).Some? ==>
                if n >= 0 || again || old(wsolong) == old(wsz)
                then (OutView(), octets) == Wrote(old(OutView()), if n < 0 then 0 else n)
                else OutView() == WriteFailed(old(OutView())) && octets == []
    {
      if wsz == 0 {
        return [];
      }
      var ok;
      ok, octets := WritePdu(n, again);
      if !ok {
        dead, octets := true, [];
      }
    }

    /** No more octets come back than were asked for. */
    ghost predicate BodyFits(size: seq<octet>, body: seq<octet>)
      reads this
    {
      if rbuf.Some? then |body| <= rsz - rsolong
      else |size| == 4 && Signed32(size) >= 4 ==> |body| <= Signed32(size) - 4
    }

    /** `readpdu`: `size` is what the read of the length returned, if there was one;
        `body` what the read behind it returned, `again` whether errno was EAGAIN when
        that was nothing. `tooSmall`: the length announced is below four, and the source
        would go on to read a negative number of octets. */
    method ReadPdu(size: seq<octet>, body: seq<octet>, again: bool) returns (ok: bool, tooSmall: bool)
      requires Valid() && !dead && BodyFits(size, body)
      modifies `rbuf, `rsz, `rsolong
      ensures Valid()
      ensures tooSmall <==> TooSmall(old(InView()), size)
      ensures tooSmall ==> !ok && InView() == old(InView())
      ensures !tooSmall ==> var i := if old(rbuf).None? then GotLength(old(InView()), size) else old(InView());
        if i.dead then !ok && InView() == old(InView())
        else if body != [] then ok && InView() == GotBody(i, body)
        else if again then ok && InView() == i
        else !ok && InView().(dead := true) == ReadFailed(i)
      // a length from four to ten megabytes is taken, a larger one is refused
      ensures old(rbuf).None? && |size| == 4 && 4 <= Signed32(size) <= 10485760 && (body != [] || again) ==>
                ok && rsz == Signed32(size) && rsolong == 4 + |body| && rbuf == Some(size + body)
      ensures old(rbuf).None? && (|size| != 4 || Signed32(size) > 10485760) ==> !ok && !tooSmall && rbuf == None
    {
      if rsz == 0 {
        if |size| != 4 {
          return false, false;
        }
        var sz := Signed32(size);
        if sz > MAX_PDU {
          return false, false;
        }
        if sz < 4 {
          return false, true;
        }
        rbuf, rsz, rsolong := Some(size), sz, 4;
      }
      if body == [] {
        if !again {
          rbuf, rsz, rsolong := None, 0, 0;
        }
        assert size + body == size;
        return again, false;
      }
      rbuf := Some(rbuf.value + body);
      rsolong := rsolong + |body|;
      return true, false;
    }

    /** `read_cb`: reads unless a whole PDU is waiting, then offers a whole PDU.
        `taken` is what got_pdu answers. */
    method ReadCb(size: seq<octet>, body: seq<octet>, again: bool, taken: bool)
      returns (offered: Option<PDU>, tooSmall: bool)
      requires Valid() && BodyFits(size, body)
      modifies this
      ensures tooSmall <==> !old(dead) && TooSmall(old(InView()), size)
      ensures tooSmall ==> offered == None && InView() == old(InView())
      ensures Valid() && OutView().(dead := old(dead)) == old(OutView())
      ensures old(dead) ==> offered == None && InView() == old(InView())
      ensures !old(dead) && Complete(old(InView())) ==>
                offered == old(rbuf) && InView() == if taken then Consumed(old(InView())) else old(InView())
      ensures !old(dead) && !tooSmall && !Complete(old(InView())) ==>
                var i := if old(rbuf).None? then GotLength(old(InView()), size) else old(InView());
                if i.dead then offered == None && InView() == i
                else if body == [] && !again then offered == None && InView() == ReadFailed(i)
                else
                  var j := if body == [] then i else GotBody(i, body);
                  if Complete(j) then offered == j.buf && InView() == if taken then Consumed(j) else j
                  else offered == None && InView() == j
      ensures !old(dead) && old(rbuf).None? && |size| == 4 && 4 <= Signed32(size) <= 10485760 && (body != [] || again) ==>
                !dead && (if |body| == Signed32(size) - 4 then offered == Some(size + body)
                          else offered == None && rsz == Signed32(size) && rsolong == 4 + |body| && rbuf == Some(size + body))
      ensures !old(dead) && old(rbuf).None? && (|size| != 4 || Signed32(size) > 10485760) ==> dead && offered == None
    {
      offered, tooSmall := None, false;
      if dead {
        return;
      }
      var ok := true;
      if rbuf.None? || rsolong < rsz {
        ok, tooSmall := ReadPdu(size, body, again);
      }
      if tooSmall {
        return;
      }
      if !ok {
        dead := true;
      }
      if rbuf.Some? && rsz == rsolong {
        offered := rbuf;
        if taken {
          rbuf, rsz, rsolong := None, 0, 0;
        }
      }
    }
  }
}
