/** One direction of a connection: `send` and `write_cb` on one side, `read_cb` on the
    other, and the bytes between them. */
module Framing {
  import opened Prelude
  import opened Wire

  const MAX_PDU := 10 * 1024 * 1024

  /** What goes over the wire for a PDU: its first four octets are overwritten with
      its length. */
  function Frame(b: PDU): (f: PDU)
    requires Sendable(b)
    ensures |f| == |b|
  {
    Be(|b|, 4) + b[4..]
  }

  predicate Sendable(b: PDU) {
    4 <= |b| < TWO31
  }

  /** The sending half: the PDU in hand and how much of it has been written, -1 after
      a write error. */
  datatype Out = Out(buf: Option<PDU>, solong: int, dead: bool)

  /** The receiving half: the PDU being put together, its length (0 before the length
      is known) and how much of it has come. */
  datatype In = In(buf: Option<PDU>, sz: int, solong: nat, dead: bool)

  const IDLE_OUT := Out(None, 0, false)
  const IDLE_IN := In(None, 0, 0, false)

  // ----- the regions of code that run with the connection's mutex held -----

  function Take(o: Out, b: PDU): Out {
    Out(Some(b), 0, o.dead)
  }

  /** The length goes into the buffer while nothing has been written. */
  function Filled(o: Out): PDU
    requires o.buf.Some? && Sendable(o.buf.value)
  {
    if o.solong == 0 then Frame(o.buf.value) else o.buf.value
  }

  /** A write call that took n octets. */
  function Wrote(o: Out, n: nat): (r: (Out, seq<octet>))
    requires o.buf.Some? && Sendable(o.buf.value) && 0 <= o.solong && o.solong + n <= |o.buf.value|
  {
    (Out(Some(Filled(o)), o.solong + n, o.dead), Filled(o)[o.solong..o.solong + n])
  }

  function WriteFailed(o: Out): Out
    requires o.buf.Some? && Sendable(o.buf.value)
  {
    Out(Some(Filled(o)), -1, true)
  }

  /** `send` returns. */
  function Finish(o: Out): Out {
    Out(None, 0, o.dead)
  }

  /** The read of the length came back with these octets, fewer than four being the
      end of the connection. The length is a signed int. */
  function GotLength(i: In, s: seq<octet>): In {
    if |s| != 4 || Signed32(s) > MAX_PDU then i.(dead := true)
    else In(Some(s), Signed32(s), 4, i.dead)
  }

  function GotBody(i: In, s: seq<octet>): In
    requires i.buf.Some?
  {
    In(Some(i.buf.value + s), i.sz, i.solong + |s|, i.dead)
  }

  /** A read that is neither data nor EAGAIN. */
  function ReadFailed(i: In): In {
    In(None, 0, 0, true)
  }

  /** got_pdu took the PDU. */
  function Consumed(i: In): In {
    In(None, 0, 0, i.dead)
  }

  predicate Complete(i: In) {
    i.buf.Some? && i.sz == i.solong
  }

  // ----- the two halves and the bytes between them -----

  /** `sent`: the PDUs `send` has taken. `wire`: every octet ever written. `pos`: how
      many of them were read. `accepted`: the PDUs got_pdu took. */
  datatype System = System(o: Out, i: In, sent: seq<PDU>, wire: seq<octet>, pos: nat, accepted: seq<PDU>)

  datatype Step =
    | Send(b: PDU)
    | Write(n: nat)
    | WriteError
    | SendReturns
    | KillSender
    | ReadLength(n: nat)
    | ReadBody(n: nat)
    | ReadError
    | Offer(taken: bool)
    | KillReceiver

  predicate Enabled(s: System, t: Step) {
    match t
    case Send(b) => !s.o.dead && s.o.buf.None? && Sendable(b)
    case Write(n) =>
      !s.o.dead && s.o.buf.Some? && Sendable(s.o.buf.value) && 0 <= s.o.solong && s.o.solong + n <= |s.o.buf.value|
    case WriteError => !s.o.dead && s.o.buf.Some? && Sendable(s.o.buf.value) && 0 <= s.o.solong
    case SendReturns => s.o.buf.Some? && (s.o.dead || s.o.solong == |s.o.buf.value|)
    case KillSender => true
    case ReadLength(n) => !s.i.dead && s.i.sz == 0 && s.i.buf.None? && n <= 4 && s.pos + n <= |s.wire|
    case ReadBody(n) => !s.i.dead && s.i.buf.Some? && s.i.solong + n <= s.i.sz && s.pos + n <= |s.wire|
    case ReadError => !s.i.dead
    case Offer(_) => Complete(s.i)
    case KillReceiver => true
  }

  function Apply(s: System, t: Step): System
    requires Enabled(s, t)
  {
    match t
    case Send(b) => s.(o := Take(s.o, b), sent := s.sent + [b])
    case Write(n) => s.(o := Wrote(s.o, n).0, wire := s.wire + Wrote(s.o, n).1)
    case WriteError => s.(o := WriteFailed(s.o))
    case SendReturns => s.(o := Finish(s.o))
    case KillSender => s.(o := s.o.(dead := true))
    case ReadLength(n) => s.(i := GotLength(s.i, s.wire[s.pos..s.pos + n]), pos := s.pos + n)
    case ReadBody(n) => s.(i := GotBody(s.i, s.wire[s.pos..s.pos + n]), pos := s.pos + n)
    case ReadError => s.(i := ReadFailed(s.i))
    case Offer(taken) =>
      if taken && s.i.buf.Some? then s.(i := Consumed(s.i), accepted := s.accepted + [s.i.buf.value]) else s
    case KillReceiver => s.(i := s.i.(dead := true))
  }

  const START := System(IDLE_OUT, IDLE_IN, [], [], 0, [])

  function Run(steps: seq<Step>): (end: Option<System>) {
    if steps == [] then Some(START)
    else
      var before := Run(steps[..|steps| - 1]);
      var last := steps[|steps| - 1];
      if before.Some? && Enabled(before.value, last) then Some(Apply(before.value, last)) else None
  }

  ghost predicate Reachable(s: System) {
    exists steps :: Run(steps) == Some(s)
  }

  // ----- invariant -----

  predicate AllSendable(bs: seq<PDU>) {
    forall k :: 0 <= k < |bs| ==> Sendable(bs[k])
  }

  /** The frames one behind the other. */
  function Frames(bs: seq<PDU>): (f: seq<octet>)
    requires AllSendable(bs)
  {
    if bs == [] then [] else Frames(bs[..|bs| - 1]) + Frame(bs[|bs| - 1])
  }

  /** The wire holds the frames of what was sent, the last perhaps in part. Once a
      frame was left unfinished the sender is dead. */
  ghost predicate OutOk(s: System) {
    && AllSendable(s.sent)
    && if s.o.buf.Some? then
         && s.sent != [] && var b := s.sent[|s.sent| - 1];
         && |s.o.buf.value| == |b| && s.o.solong <= |b| && (s.o.solong < 0 ==> s.o.dead && s.wire <= Frames(s.sent))
         && Sendable(s.o.buf.value) && Frame(s.o.buf.value) == Frame(b) && (s.o.solong > 0 ==> s.o.buf.value == Frame(b))
         && (s.o.solong >= 0 ==> s.wire == Frames(s.sent[..|s.sent| - 1]) + Frame(b)[..s.o.solong])
       else
         && s.wire <= Frames(s.sent) && (s.wire == Frames(s.sent) || s.o.dead)
  }

  /** The receiver stands inside the frame after those it has accepted. */
  ghost predicate InOk(s: System) {
    && AllSendable(s.sent) && s.wire <= Frames(s.sent)
    && var k := |s.accepted|;
    && k <= |s.sent| && s.pos <= |s.wire|
    && (forall j :: 0 <= j < k ==> s.accepted[j] == Frame(s.sent[j]))
    && (s.i.buf.Some? ==>
        && k < |s.sent| && 4 <= s.i.solong <= s.i.sz == |s.sent[k]|
        && s.i.buf.value == Frame(s.sent[k])[..s.i.solong]
        && s.pos == |Frames(s.sent[..k])| + s.i.solong)
    && (s.i.buf.None? ==> s.i.sz == 0 && (s.i.dead || s.pos == |Frames(s.sent[..k])|))
  }

  ghost predicate Inv(s: System) {
    OutOk(s) && InOk(s)
  }

  lemma {:induction false} FramesSplit(bs: seq<PDU>, k: nat)
    requires AllSendable(bs) && k <= |bs|
    ensures Frames(bs[..k]) <= Frames(bs)
    ensures k < |bs| ==> Frames(bs[..k + 1]) == Frames(bs[..k]) + Frame(bs[k]) && Frames(bs[..k + 1]) <= Frames(bs)
    decreases |bs|
  {
    if k == |bs| {
      assert bs[..k] == bs;
    } else {
      var front := bs[..|bs| - 1];
      assert bs[..k + 1][..k] == bs[..k];
      if k + 1 < |bs| {
        FramesSplit(front, k);
        assert front[..k] == bs[..k] && front[..k + 1] == bs[..k + 1];
      } else {
        assert bs[..k + 1] == bs && front == bs[..k];
      }
    }
  }

  /** More frames behind do not matter for what is in front. */
  lemma FramesMore(bs: seq<PDU>, b: PDU)
    requires AllSendable(bs) && Sendable(b)
    ensures Frames(bs + [b]) == Frames(bs) + Frame(b)
  {
    assert (bs + [b])[..|bs|] == bs;
  }

  lemma FrameTwice(b: PDU)
    requires Sendable(b)
    ensures Sendable(Frame(b)) && Frame(Frame(b)) == Frame(b)
  {
  }

  // ----- the sending steps -----

  lemma SendOk(s: System, b: PDU)
    requires Inv(s) && Enabled(s, Send(b))
    ensures Inv(Apply(s, Send(b)))
  {
    var s' := Apply(s, Send(b));
    FramesMore(s.sent, b);
    assert s'.sent[..|s.sent|] == s.sent;
    assert s'.sent[..|s.accepted|] == s.sent[..|s.accepted|];
  }

  lemma WrittenOctets(o: Out, b: PDU, n: nat)
    requires o.buf.Some? && Sendable(o.buf.value) && Sendable(b) && |o.buf.value| == |b| && 0 <= o.solong && o.solong + n <= |b|
    requires Frame(o.buf.value) == Frame(b) && (o.solong > 0 ==> o.buf.value == Frame(b))
    ensures Wrote(o, n) == (Out(Some(Frame(b)), o.solong + n, o.dead), Frame(b)[o.solong..o.solong + n])
  {
  }

  lemma WriteWire(s: System, n: nat)
    requires OutOk(s) && Enabled(s, Write(n))
    ensures var b, s' := s.sent[|s.sent| - 1], Apply(s, Write(n));
      && s'.o == Out(Some(Frame(b)), s.o.solong + n, s.o.dead)
      && s'.wire == Frames(s.sent[..|s.sent| - 1]) + Frame(b)[..s.o.solong + n]
  {
    var b := s.sent[|s.sent| - 1];
    WrittenOctets(s.o, b, n);
    Joined(Frames(s.sent[..|s.sent| - 1]), Frame(b), s.o.solong, n);
  }

  lemma LastFrame(bs: seq<PDU>)
    requires AllSendable(bs) && bs != []
    ensures Frames(bs) == Frames(bs[..|bs| - 1]) + Frame(bs[|bs| - 1])
  {
  }

  lemma WriteOut(s: System, n: nat)
    requires OutOk(s) && Enabled(s, Write(n))
    ensures OutOk(Apply(s, Write(n))) && Apply(s, Write(n)).wire <= Frames(s.sent)
  {
    var b := s.sent[|s.sent| - 1];
    WriteWire(s, n);
    FrameTwice(b);
    LastFrame(s.sent);
    Joined(Frames(s.sent[..|s.sent| - 1]), Frame(b), s.o.solong, n);
  }

  lemma Joined(u: seq<octet>, f: seq<octet>, x: nat, n: nat)
    requires x + n <= |f|
    ensures u + f[..x] + f[x..x + n] == u + f[..x + n]
    ensures u + f[..x + n] <= u + f
  {
    assert f[..x] + f[x..x + n] == f[..x + n];
  }

  lemma WriteOk(s: System, n: nat)
    requires Inv(s) && Enabled(s, Write(n))
    ensures Inv(Apply(s, Write(n)))
  {
    WriteOut(s, n);
    var s' := Apply(s, Write(n));
    assert s'.sent == s.sent && s'.i == s.i && s'.pos == s.pos && s'.accepted == s.accepted && |s'.wire| >= |s.wire|;
  }

  lemma WriteErrorOk(s: System)
    requires Inv(s) && Enabled(s, WriteError)
    ensures Inv(Apply(s, WriteError))
  {
    FrameTwice(s.sent[|s.sent| - 1]);
  }

  lemma SendReturnsOk(s: System)
    requires Inv(s) && Enabled(s, SendReturns)
    ensures Inv(Apply(s, SendReturns))
  {
    FramesSplit(s.sent, |s.sent| - 1);
  }

  // ----- the receiving steps -----

  /** The octets at `x` inside frame k are what is read there. */
  lemma WireAt(s: System, k: nat, x: nat, n: nat)
    requires AllSendable(s.sent) && s.wire <= Frames(s.sent) && k < |s.sent|
    requires s.pos == |Frames(s.sent[..k])| + x && x + n <= |s.sent[k]| && s.pos + n <= |s.wire|
    ensures s.wire[s.pos..s.pos + n] == Frame(s.sent[k])[x..x + n]
  {
    FramesSplit(s.sent, k);
    PrefixSlice(s.wire, Frames(s.sent), s.pos, s.pos + n);
    PrefixSlice(Frames(s.sent[..k + 1]), Frames(s.sent), s.pos, s.pos + n);
    InnerSlice(Frames(s.sent[..k]), Frame(s.sent[k]), x, n);
  }

  lemma PrefixSlice(a: seq<octet>, b: seq<octet>, p: nat, q: nat)
    requires a <= b && p <= q <= |a|
    ensures a[p..q] == b[p..q]
  {
  }

  lemma InnerSlice(u: seq<octet>, f: seq<octet>, x: nat, n: nat)
    requires x + n <= |f|
    ensures (u + f)[|u| + x..|u| + x + n] == f[x..x + n]
  {
  }

  /** Four octets read between frames are the length of the next one. */
  lemma LengthRead(s: System)
    requires InOk(s) && Enabled(s, ReadLength(4))
    ensures |s.accepted| < |s.sent|
    ensures s.wire[s.pos..s.pos + 4] == Frame(s.sent[|s.accepted|])[..4]
    ensures Signed32(s.wire[s.pos..s.pos + 4]) == |s.sent[|s.accepted|]|
  {
    var k := |s.accepted|;
    assert s.sent[..|s.sent|] == s.sent;
    WireAt(s, k, 0, 4);
    FrameCarries(s.sent[k]);
  }

  lemma ReadLengthOk(s: System, n: nat)
    requires Inv(s) && Enabled(s, ReadLength(n))
    ensures Inv(Apply(s, ReadLength(n)))
  {
    ReadLengthIn(s, n);
    OutSame(s, Apply(s, ReadLength(n)));
  }

  lemma ReadLengthIn(s: System, n: nat)
    requires InOk(s) && Enabled(s, ReadLength(n))
    ensures InOk(Apply(s, ReadLength(n)))
  {
    if n == 4 {
      LengthRead(s);
    }
  }

  lemma BodyRead(s: System, n: nat)
    requires InOk(s) && Enabled(s, ReadBody(n))
    ensures |s.accepted| < |s.sent| && s.i.solong + n <= |s.sent[|s.accepted|]|
    ensures s.i.buf.value + s.wire[s.pos..s.pos + n] == Frame(s.sent[|s.accepted|])[..s.i.solong + n]
  {
    var k, x := |s.accepted|, s.i.solong;
    WireAt(s, k, x, n);
    assert Frame(s.sent[k])[..x] + Frame(s.sent[k])[x..x + n] == Frame(s.sent[k])[..x + n];
  }

  lemma ReadBodyOk(s: System, n: nat)
    requires Inv(s) && Enabled(s, ReadBody(n))
    ensures Inv(Apply(s, ReadBody(n)))
  {
    ReadBodyIn(s, n);
    OutSame(s, Apply(s, ReadBody(n)));
  }

  lemma ReadBodyIn(s: System, n: nat)
    requires InOk(s) && Enabled(s, ReadBody(n))
    ensures InOk(Apply(s, ReadBody(n)))
  {
    BodyRead(s, n);
  }

  /** Receiving steps leave the sending half alone. */
  lemma OutSame(s: System, s': System)
    requires OutOk(s) && s'.o == s.o && s'.sent == s.sent && s'.wire == s.wire
    ensures OutOk(s')
  {
  }

  lemma OfferOk(s: System, taken: bool)
    requires Inv(s) && Enabled(s, Offer(taken))
    ensures Inv(Apply(s, Offer(taken)))
  {
    FramesSplit(s.sent, |s.accepted|);
    assert Frame(s.sent[|s.accepted|])[..s.i.sz] == Frame(s.sent[|s.accepted|]);
    OutSame(s, Apply(s, Offer(taken)));
  }

  lemma StoppedOk(s: System, t: Step)
    requires Inv(s) && Enabled(s, t) && (t.KillSender? || t.ReadError? || t.KillReceiver?)
    ensures Inv(Apply(s, t))
  {
  }

  lemma StepKeeps(s: System, t: Step)
    requires Inv(s) && Enabled(s, t)
    ensures Inv(Apply(s, t))
  {
    match t
    case Send(b) => SendOk(s, b);
    case Write(n) => WriteOk(s, n);
    case WriteError => WriteErrorOk(s);
    case SendReturns => SendReturnsOk(s);
    case KillSender => StoppedOk(s, t);
    case ReadLength(n) => ReadLengthOk(s, n);
    case ReadBody(n) => ReadBodyOk(s, n);
    case ReadError => StoppedOk(s, t);
    case Offer(taken) => OfferOk(s, taken);
    case KillReceiver => StoppedOk(s, t);
  }

  lemma {:induction false} RunKeeps(steps: seq<Step>)
    ensures Run(steps).Some? ==> Inv(Run(steps).value)
  {
    if steps != [] {
      var before := steps[..|steps| - 1];
      RunKeeps(before);
      if Run(steps).Some? {
        StepKeeps(Run(before).value, steps[|steps| - 1]);
      }
    }
  }

  // ----- what it means -----

  /** However writes and reads are cut up, and however often got_pdu refuses, the
      PDUs accepted are the first of those sent, in order, each once. */
  lemma AcceptedInOrder(s: System)
    requires Reachable(s)
    ensures |s.accepted| <= |s.sent|
    ensures forall k :: 0 <= k < |s.accepted| ==> Sendable(s.sent[k]) && s.accepted[k] == Frame(s.sent[k])
  {
    var steps :| Run(steps) == Some(s);
    RunKeeps(steps);
  }

  /** The last octets of a frame carry the PDU, the first four its length. */
  lemma FrameCarries(b: PDU)
    requires Sendable(b)
    ensures Signed32(Frame(b)[..4]) == |b| && Frame(b)[4..] == b[4..]
  {
    LengthRoundTrip(|b|);
    assert Frame(b)[..4] == Be(|b|, 4);
  }

  lemma {:induction false} FramesGrow(bs: seq<PDU>, k: nat)
    requires AllSendable(bs) && k < |bs|
    ensures |Frames(bs[..k])| < |Frames(bs)|
  {
    FramesSplit(bs, k);
  }

  // ----- when a connection breaks -----

  /** A length from four to ten megabytes is taken. */
  lemma LengthTaken(n: nat)
    requires 4 <= n <= 10485760
    ensures GotLength(IDLE_IN, Be(n, 4)) == In(Some(Be(n, 4)), n, 4, false)
  {
    LengthRoundTrip(n);
  }

  /** A larger one is the end of the connection. */
  lemma LengthRefused(n: nat)
    requires 10485760 < n < TWO31
    ensures GotLength(IDLE_IN, Be(n, 4)).dead
  {
    LengthRoundTrip(n);
  }

  predicate BreaksSender(t: Step) {
    t.WriteError? || t.KillSender?
  }

  /** An error, a stop from outside, a length cut short, or a PDU of more than ten
      megabytes. */
  predicate BreaksReceiver(s: System, t: Step) {
    || t.ReadError? || t.KillReceiver?
    || (t.ReadLength? && (t.n != 4 || (|s.accepted| < |s.sent| && |s.sent[|s.accepted|]| > 10485760)))
  }

  ghost predicate SenderBroke(steps: seq<Step>) {
    exists k :: 0 <= k < |steps| && BreaksSender(steps[k])
  }

  ghost predicate ReceiverBroke(steps: seq<Step>)
    requires Run(steps).Some?
  {
    steps != [] && (ReceiverBroke(steps[..|steps| - 1])
                    || BreaksReceiver(Run(steps[..|steps| - 1]).value, steps[|steps| - 1]))
  }

  lemma BrokeBefore(steps: seq<Step>)
    requires steps != []
    ensures SenderBroke(steps) <==> SenderBroke(steps[..|steps| - 1]) || BreaksSender(steps[|steps| - 1])
  {
    var before := steps[..|steps| - 1];
    if k :| 0 <= k < |before| && BreaksSender(before[k]) {
      assert BreaksSender(steps[k]);
    }
    if k :| 0 <= k < |steps| - 1 && BreaksSender(steps[k]) {
      assert BreaksSender(before[k]);
    }
  }

  lemma DeadAfter(s: System, t: Step)
    requires Inv(s) && Enabled(s, t)
    ensures Apply(s, t).o.dead <==> s.o.dead || BreaksSender(t)
    ensures Apply(s, t).i.dead <==> s.i.dead || BreaksReceiver(s, t)
  {
    if t == ReadLength(4) {
      LengthRead(s);
    }
  }

  /** Each side of the connection is dead if and only if something broke it. */
  lemma {:induction false} DeadWhen(steps: seq<Step>)
    requires Run(steps).Some?
    ensures Run(steps).value.o.dead <==> SenderBroke(steps)
    ensures Run(steps).value.i.dead <==> ReceiverBroke(steps)
  {
    if steps != [] {
      var before := steps[..|steps| - 1];
      DeadWhen(before);
      RunKeeps(before);
      BrokeBefore(steps);
      DeadAfter(Run(before).value, steps[|steps| - 1]);
    }
  }

  /** No error, no stop, no length cut short, and no PDU of more than ten megabytes. */
  predicate Quiet(t: Step) {
    match t
    case Send(b) => |b| <= 10485760
    case ReadLength(n) => n == 4
    case WriteError => false
    case KillSender => false
    case ReadError => false
    case KillReceiver => false
    case _ => true
  }

  ghost predicate AllQuiet(steps: seq<Step>) {
    forall k :: 0 <= k < |steps| ==> Quiet(steps[k])
  }

  lemma {:induction false} SentSmall(steps: seq<Step>)
    requires Run(steps).Some? && AllQuiet(steps)
    ensures forall k :: 0 <= k < |Run(steps).value.sent| ==> |Run(steps).value.sent[k]| <= 10485760
  {
    if steps != [] {
      var before := steps[..|steps| - 1];
      assert forall k :: 0 <= k < |before| ==> before[k] == steps[k];
      SentSmall(before);
      assert Quiet(steps[|steps| - 1]);
    }
  }

  lemma {:induction false} QuietIsUnbroken(steps: seq<Step>)
    requires Run(steps).Some? && AllQuiet(steps)
    ensures !SenderBroke(steps) && !ReceiverBroke(steps)
  {
    forall k | 0 <= k < |steps| ensures !BreaksSender(steps[k]) {
      assert Quiet(steps[k]);
    }
    if steps != [] {
      var before := steps[..|steps| - 1];
      assert forall k :: 0 <= k < |before| ==> before[k] == steps[k];
      QuietIsUnbroken(before);
      SentSmall(before);
      assert Quiet(steps[|steps| - 1]);
    }
  }

  /** Without such a step both sides stay alive. */
  lemma StaysAlive(steps: seq<Step>)
    requires Run(steps).Some? && AllQuiet(steps)
    ensures !Run(steps).value.o.dead && !Run(steps).value.i.dead
  {
    QuietIsUnbroken(steps);
    DeadWhen(steps);
  }

  lemma AllAccepted(s: System)
    requires Inv(s) && !s.o.dead && !s.i.dead && s.o.buf.None? && s.pos == |s.wire| && s.i.buf.None?
    ensures |s.accepted| == |s.sent|
  {
    if |s.accepted| < |s.sent| {
      FramesGrow(s.sent, |s.accepted|);
    }
  }

  /** Nothing is lost unless something breaks the connection: when `send` has returned and
      everything written has been read, every PDU sent has been accepted. */
  lemma NothingLost(steps: seq<Step>)
    requires Run(steps).Some? && !SenderBroke(steps) && !ReceiverBroke(steps)
    requires var s := Run(steps).value; s.o.buf.None? && s.pos == |s.wire| && s.i.buf.None?
    ensures var s := Run(steps).value;
      && |s.accepted| == |s.sent|
      && forall k :: 0 <= k < |s.sent| ==> Sendable(s.sent[k]) && s.accepted[k] == Frame(s.sent[k])
  {
    DeadWhen(steps);
    RunKeeps(steps);
    AllAccepted(Run(steps).value);
  }

  /** So with ordinary PDUs and no error nothing is lost. */
  lemma NothingLostQuietly(steps: seq<Step>)
    requires Run(steps).Some? && AllQuiet(steps)
    requires var s := Run(steps).value; s.o.buf.None? && s.pos == |s.wire| && s.i.buf.None?
    ensures |Run(steps).value.accepted| == |Run(steps).value.sent|
  {
    QuietIsUnbroken(steps);
    NothingLost(steps);
  }

  /** `send` that returns true has put the whole frame on the wire, behind those
      before it. */
  lemma TrueMeansWritten(s: System)
    requires Reachable(s) && s.o.buf.Some? && !s.o.dead && s.o.solong == |s.o.buf.value|
    ensures AllSendable(s.sent) && s.wire == Frames(s.sent)
  {
    var steps :| Run(steps) == Some(s);
    RunKeeps(steps);
    FramesSplit(s.sent, |s.sent| - 1);
    var b := s.sent[|s.sent| - 1];
    assert Frame(b)[..|b|] == Frame(b);
  }

  /** A peer that sends PDUs of at least four octets is never heard to announce less. */
  lemma NeverTooSmall(s: System)
    requires Reachable(s) && Enabled(s, ReadLength(4))
    ensures Signed32(s.wire[s.pos..s.pos + 4]) >= 4
  {
    var steps :| Run(steps) == Some(s);
    RunKeeps(steps);
    LengthRead(s);
  }

  // ----- a PDU can get through -----

  lemma {:induction false} RunMore(steps: seq<Step>, t: Step)
    requires Run(steps).Some? && Enabled(Run(steps).value, t)
    ensures Run(steps + [t]) == Some(Apply(Run(steps).value, t))
  {
    assert (steps + [t])[..|steps|] == steps;
  }

  lemma CanBeWritten(b: PDU)
    requires 4 <= |b| <= 10485760
    ensures Enabled(START, Send(b)) && Enabled(Apply(START, Send(b)), Write(|b|))
    ensures Apply(Apply(START, Send(b)), Write(|b|))
         == System(Out(Some(Frame(b)), |b|, false), IDLE_IN, [b], Frame(b), 0, [])
  {
    var s := Apply(START, Send(b));
    assert s == System(Out(Some(b), 0, false), IDLE_IN, [b], [], 0, []) by {
      assert START.sent + [b] == [b];
    }
    var f := Frame(b);
    assert f[0..|b|] == f;
    assert Wrote(s.o, |b|) == (Out(Some(f), |b|, false), f);
    assert s.wire + f == f;
  }

  lemma CanBeRead(s: System, b: PDU)
    requires 4 <= |b| <= 10485760 && s.wire == Frame(b) && s.pos == 0 && s.i == IDLE_IN && s.accepted == []
    ensures Enabled(s, ReadLength(4)) && Enabled(Apply(s, ReadLength(4)), ReadBody(|b| - 4))
    ensures Apply(Apply(s, ReadLength(4)), ReadBody(|b| - 4))
         == s.(i := In(Some(Frame(b)), |b|, |b|, false), pos := |b|)
  {
    var f := Frame(b);
    FrameCarries(b);
    assert f[0..4] == f[..4];
    assert f[..4] + f[4..|b|] == f;
  }

  /** Any PDU of ordinary size can be sent, read and accepted. */
  lemma GetsThrough(b: PDU) returns (steps: seq<Step>)
    requires 4 <= |b| <= 10485760
    ensures AllQuiet(steps) && Run(steps).Some? && Run(steps).value.sent == [b] && Run(steps).value.accepted == [Frame(b)]
  {
    CanBeWritten(b);
    RunMore([], Send(b));
    RunMore([] + [Send(b)], Write(|b|));
    steps := [] + [Send(b)] + [Write(|b|)];
    CanBeRead(Run(steps).value, b);
    RunMore(steps, ReadLength(4));
    RunMore(steps + [ReadLength(4)], ReadBody(|b| - 4));
    steps := steps + [ReadLength(4)] + [ReadBody(|b| - 4)];
    RunMore(steps, Offer(true));
    steps := steps + [Offer(true)];
  }
}
