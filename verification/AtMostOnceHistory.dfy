/** What the server's reply windows and the clients' tables mean, told from the steps of
    the run alone: what was received, executed, answered and reported. */
module AtMostOnceHistory {
  import opened Prelude
  import opened Histories
  import opened ReplyWindow
  import opened AtMostOnce
  import opened AtMostOnceSafety
  import A = AckWindow
  import T = AtMostOnceTheorems

  function Max(a: nat, b: nat): nat {
    if a < b then b else a
  }

  // ----- the server -----

  /** The running instance receives a request of the client that is meant for it. */
  predicate Hears(s: System, step: Step, clt: Nonce) {
    step.Receive? && step.req.clt == clt && (step.req.srv == 0 || step.req.srv == s.server.nonce)
  }

  /** What the client has acknowledged to the running instance. */
  ghost function AckedTo(s: System, steps: seq<Step>, clt: Nonce): Xid
    requires Run(s, steps).Some?
  {
    if steps == [] || Last(steps).Restart? then 0
    else if Hears(Run(s, Before(steps)).value, Last(steps), clt) then Max(AckedTo(s, Before(steps), clt), Last(steps).req.rep)
    else AckedTo(s, Before(steps), clt)
  }

  /** The running instance has received the request, and not when it was acknowledged. */
  ghost predicate Taken(s: System, steps: seq<Step>, clt: Nonce, xid: Xid)
    requires Run(s, steps).Some?
  {
    && steps != [] && !Last(steps).Restart?
    && (|| Taken(s, Before(steps), clt, xid)
        || (Hears(Run(s, Before(steps)).value, Last(steps), clt) && Last(steps).req.xid == xid > AckedTo(s, steps, clt)))
  }

  /** The running instance has answered the request. */
  predicate Answered(steps: seq<Step>, clt: Nonce, xid: Xid) {
    && steps != [] && !Last(steps).Restart?
    && (Last(steps) == Finish(clt, xid) || Answered(Before(steps), clt, xid))
  }

  ghost predicate Remembers(s: System, steps: seq<Step>, clt: Nonce)
    requires Run(s, steps).Some?
  {
    var server := Run(s, steps).value.server;
    var w := WindowOf(server, clt);
    && w.watermark == AckedTo(s, steps, clt)
    && (forall x: Xid :: x in w.replies <==> x > w.watermark && Taken(s, steps, clt, x))
    && (forall x: Xid :: x in w.replies ==> (w.replies[x].Some? <==> Answered(steps, clt, x)))
    && (forall x: Xid :: (clt, x) in server.running <==> Taken(s, steps, clt, x) && !Answered(steps, clt, x))
    && (forall x: Xid :: Answered(steps, clt, x) ==> Taken(s, steps, clt, x))
  }

  lemma {:induction false} ServerRemembers(clts: set<Nonce>, nonce: Nonce, steps: seq<Step>, clt: Nonce)
    requires Run(Start(clts, nonce), steps).Some?
    ensures Remembers(Start(clts, nonce), steps, clt)
  {
    var s0 := Start(clts, nonce);
    if steps != [] {
      var s, last := Run(s0, Before(steps)).value, Last(steps);
      ServerRemembers(clts, nonce, Before(steps), clt);
      match last
      case Receive(req) =>
        if Hears(s, last, clt) {
          HeardRemembered(s0, steps, clt);
        } else {
          NotHeard(s0, steps, clt);
        }
      case Finish(c, xid) => FinishRemembered(s0, steps, clt);
      case _ => 
        assert !Hears(s, last, clt);
    }
  }

  lemma NotHeard(s0: System, steps: seq<Step>, clt: Nonce)
    requires Run(s0, steps).Some? && steps != [] && Last(steps).Receive?
    requires !Hears(Run(s0, Before(steps)).value, Last(steps), clt) && Remembers(s0, Before(steps), clt)
    ensures Remembers(s0, steps, clt)
  {
    var s, s' := Run(s0, Before(steps)).value, Run(s0, steps).value;
    assert WindowOf(s'.server, clt) == WindowOf(s.server, clt);
    assert forall x :: (clt, x) in s'.server.running <==> (clt, x) in s.server.running;
  }

  /** The window after a request. */
  lemma WindowAfter(w: Window, xid: Xid, rep: Xid)
    requires Valid(w)
    ensures var (v, state) := Check(w, xid, rep);
      && v.watermark == Max(w.watermark, rep)
      && (forall x :: x in v.replies <==> x > v.watermark && (x in w.replies || x == xid))
      && (forall x :: x in v.replies ==> v.replies[x] == if x in w.replies then w.replies[x] else None)
      && (state.New? <==> xid > v.watermark && xid !in w.replies)
  {
  }

  lemma HeardRemembered(s0: System, steps: seq<Step>, clt: Nonce)
    requires Run(s0, steps).Some? && steps != []
    requires Hears(Run(s0, Before(steps)).value, Last(steps), clt) && Remembers(s0, Before(steps), clt)
    ensures Remembers(s0, steps, clt)
  {
    var s, s', req := Run(s0, Before(steps)).value, Run(s0, steps).value, Last(steps).req;
    var w := WindowOf(s.server, clt);
    WindowAfter(w, req.xid, req.rep);
    ReceivedServer(s, req);
    TakenMore(s0, steps, clt);
    var v := WindowOf(s'.server, clt);
    forall x: Xid
      ensures x in v.replies <==> x > v.watermark && Taken(s0, steps, clt, x)
      ensures (clt, x) in s'.server.running <==> Taken(s0, steps, clt, x) && !Answered(steps, clt, x)
    {
      assert Answered(steps, clt, x) <==> Answered(Before(steps), clt, x);
    }
  }

  lemma TakenMore(s0: System, steps: seq<Step>, clt: Nonce)
    requires Run(s0, steps).Some? && steps != [] && Hears(Run(s0, Before(steps)).value, Last(steps), clt)
    ensures AckedTo(s0, steps, clt) == Max(AckedTo(s0, Before(steps), clt), Last(steps).req.rep)
    ensures forall x: Xid :: Taken(s0, steps, clt, x) <==>
              Taken(s0, Before(steps), clt, x) || (x == Last(steps).req.xid && x > AckedTo(s0, steps, clt))
    ensures forall x: Xid :: Answered(steps, clt, x) <==> Answered(Before(steps), clt, x)
  {
  }

  lemma ReceivedServer(s: System, req: Request)
    requires !Old(s, req)
    ensures var (v, state) := Check(WindowOf(s.server, req.clt), req.xid, req.rep);
      var server := Received(s, req).server;
      && WindowOf(server, req.clt) == v
      && server.running == if state.New? then s.server.running[(req.clt, req.xid) := None] else s.server.running
  {
  }

  lemma FinishRemembered(s0: System, steps: seq<Step>, clt: Nonce)
    requires Run(s0, steps).Some? && steps != [] && Last(steps).Finish? && Remembers(s0, Before(steps), clt)
    ensures Remembers(s0, steps, clt)
  {
    var s, last := Run(s0, Before(steps)).value, Last(steps);
    assert !Hears(s, last, clt);
    assert (last.clt, last.xid) in s.server.running;
  }

  /** The running instance executed the request, with this value. */
  ghost predicate ExecutedHere(s: System, clt: Nonce, xid: Xid, value: Value) {
    exists e :: e in s.log && e.srv == s.server.nonce && Key(e) == (clt, xid) && e.value == value
  }

  ghost predicate ValuesHere(s: System) {
    && (forall j :: j in s.server.running && s.server.running[j].Some? ==> ExecutedHere(s, j.0, j.1, s.server.running[j].value))
    && (forall clt, x :: x in WindowOf(s.server, clt).replies && WindowOf(s.server, clt).replies[x].Some? ==>
          ExecutedHere(s, clt, x, WindowOf(s.server, clt).replies[x].value))
  }

  lemma HereStays(s: System, s': System, clt: Nonce, xid: Xid, value: Value)
    requires s'.server.nonce == s.server.nonce && s.log <= s'.log && ExecutedHere(s, clt, xid, value)
    ensures ExecutedHere(s', clt, xid, value)
  {
    var e :| e in s.log && e.srv == s.server.nonce && Key(e) == (clt, xid) && e.value == value;
    assert e in s'.log;
  }

  /** More entries in the log, the same or fewer values to account for. */
  lemma ValuesHereFrom(s: System, s': System)
    requires ValuesHere(s) && s'.server.nonce == s.server.nonce && s.log <= s'.log
    requires forall j | j in s'.server.running && s'.server.running[j].Some? ::
               ExecutedHere(s, j.0, j.1, s'.server.running[j].value) || ExecutedHere(s', j.0, j.1, s'.server.running[j].value)
    requires forall clt, x | x in WindowOf(s'.server, clt).replies && WindowOf(s'.server, clt).replies[x].Some? ::
               ExecutedHere(s, clt, x, WindowOf(s'.server, clt).replies[x].value)
    ensures ValuesHere(s')
  {
    forall c, x, v | ExecutedHere(s, c, x, v) ensures ExecutedHere(s', c, x, v) {
      HereStays(s, s', c, x, v);
    }
  }

  lemma ValuesHereKept(s: System, step: Step)
    requires Enabled(s, step) && ValuesHere(s)
    ensures ValuesHere(Apply(s, step))
  {
    var s' := Apply(s, step);
    match step
    case Restart(_) =>
    case Execute(req, value) =>
      assert s'.log[|s.log|] == Exec(s.server.nonce, req, value);
      assert ExecutedHere(s', req.clt, req.xid, value);
      assert forall clt :: WindowOf(s'.server, clt) == WindowOf(s.server, clt);
      forall j | j in s'.server.running && s'.server.running[j].Some? && j != (req.clt, req.xid)
        ensures ExecutedHere(s, j.0, j.1, s'.server.running[j].value)
      {
        assert j in s.server.running && s'.server.running[j] == s.server.running[j];
      }
      ValuesHereFrom(s, s');
    case Receive(req) =>
      ReceivedValues(s, req);
      ValuesHereFrom(s, s');
    case Finish(clt, xid) =>
      FinishedValues(s, clt, xid);
      ValuesHereFrom(s, s');
    case _ =>
      ValuesHereFrom(s, s');
  }

  lemma FinishedValues(s: System, clt: Nonce, xid: Xid)
    requires Enabled(s, Finish(clt, xid)) && ValuesHere(s)
    ensures var server := Finished(s, clt, xid).server;
      && (forall j :: j in server.running && server.running[j].Some? ==> j in s.server.running && server.running[j] == s.server.running[j])
      && (forall c, x :: x in WindowOf(server, c).replies && WindowOf(server, c).replies[x].Some? ==>
            ExecutedHere(s, c, x, WindowOf(server, c).replies[x].value))
  {
    var server := Finished(s, clt, xid).server;
    assert ExecutedHere(s, clt, xid, s.server.running[(clt, xid)].value);
    forall c, x | x in WindowOf(server, c).replies && WindowOf(server, c).replies[x].Some?
      ensures ExecutedHere(s, c, x, WindowOf(server, c).replies[x].value)
    {
      if c != clt || x != xid {
        assert WindowOf(server, c).replies[x] == WindowOf(s.server, c).replies[x];
      }
    }
  }

  lemma ReceivedValues(s: System, req: Request)
    ensures var server := Received(s, req).server;
      && (forall j :: j in server.running && server.running[j].Some? ==> j in s.server.running && server.running[j] == s.server.running[j])
      && (forall clt, x :: x in WindowOf(server, clt).replies && WindowOf(server, clt).replies[x].Some? ==>
            x in WindowOf(s.server, clt).replies && WindowOf(server, clt).replies[x] == WindowOf(s.server, clt).replies[x])
  {
    if !Old(s, req) {
      ReceivedServer(s, req);
    }
  }

  lemma {:induction false} ValuesHereAlong(clts: set<Nonce>, nonce: Nonce, steps: seq<Step>)
    requires Run(Start(clts, nonce), steps).Some?
    ensures ValuesHere(Run(Start(clts, nonce), steps).value)
  {
    if steps != [] {
      ValuesHereAlong(clts, nonce, Before(steps));
      ValuesHereKept(Run(Start(clts, nonce), Before(steps)).value, Last(steps));
    }
  }

  /** What dispatch does with a request, in every run. One for another instance is told
      so. One at or below what the client acknowledged is told it was forgotten. One not
      received before is started. One received and not answered gets nothing. One
      answered gets the value of its execution again. */
  lemma DispatchedWhen(clts: set<Nonce>, nonce: Nonce, steps: seq<Step>, req: Request)
    requires Run(Start(clts, nonce), steps).Some? && req in Run(Start(clts, nonce), steps).value.requests
    ensures var s0 := Start(clts, nonce);
      var s := Run(s0, steps).value; var s' := Apply(s, Receive(req));
      var key := (req.clt, req.xid);
      if req.srv != 0 && req.srv != s.server.nonce then
        s'.replies == s.replies + {Reply(req.clt, req.xid, OldServerFailure)} && s'.server == s.server
      else if req.xid <= Max(AckedTo(s0, steps, req.clt), req.rep) then
        s'.replies == s.replies + {Reply(req.clt, req.xid, AtMostOnceFailure)} && s'.server.running == s.server.running
      else if !Taken(s0, steps, req.clt, req.xid) then
        s'.replies == s.replies && s'.server.running == s.server.running[key := None]
      else if !Answered(steps, req.clt, req.xid) then
        s'.replies == s.replies && s'.server.running == s.server.running
      else
        && s'.server.running == s.server.running
        && exists value :: ExecutedHere(s, req.clt, req.xid, value)
             && s'.replies == s.replies + {Reply(req.clt, req.xid, Result(value))}
  {
    ServerRemembers(clts, nonce, steps, req.clt);
    ValuesHereAlong(clts, nonce, steps);
  }

  /** The four answers to a request for the running instance. */
  lemma AnswerWhen(clts: set<Nonce>, nonce: Nonce, steps: seq<Step>, req: Request)
    requires Run(Start(clts, nonce), steps).Some?
    ensures var s0 := Start(clts, nonce); var s := Run(s0, steps).value;
      var acked := req.xid <= Max(AckedTo(s0, steps, req.clt), req.rep);
      var taken, answered := Taken(s0, steps, req.clt, req.xid), Answered(steps, req.clt, req.xid);
      && (StateOf(s, req).Forgotten? <==> acked)
      && (StateOf(s, req).New? <==> !acked && !taken)
      && (StateOf(s, req).InProgress? <==> !acked && taken && !answered)
      && (StateOf(s, req).Done? <==> !acked && answered)
      && (StateOf(s, req).Done? ==> ExecutedHere(s, req.clt, req.xid, StateOf(s, req).value))
  {
    ServerRemembers(clts, nonce, steps, req.clt);
    ValuesHereAlong(clts, nonce, steps);
  }

  /** For a call that waits: a request not received is new, one that is executing is in
      progress, and one that is executed and answered gets its saved value. */
  lemma AnswerToWaiting(clts: set<Nonce>, nonce: Nonce, steps: seq<Step>, req: Request)
    requires nonce != 0 && 0 !in clts && Run(Start(clts, nonce), steps).Some?
    requires var s := Run(Start(clts, nonce), steps).value;
      req in s.requests && (req.srv == 0 || req.srv == s.server.nonce) && T.IsWaiting(s, req.clt, req.xid)
    ensures var s0 := Start(clts, nonce); var s := Run(s0, steps).value;
      && (StateOf(s, req).New? <==> !Taken(s0, steps, req.clt, req.xid))
      && (StateOf(s, req).InProgress? <==> (req.clt, req.xid) in s.server.running)
      && (forall e :: e in s.log && e.srv == s.server.nonce && Key(e) == (req.clt, req.xid) && Key(e) !in s.server.running ==>
            StateOf(s, req) == Done(e.value))
  {
    var s := Run(Start(clts, nonce), steps).value;
    AnswerWhen(clts, nonce, steps, req);
    ServerRemembers(clts, nonce, steps, req.clt);
    assert Reachable(s);
    T.PendingNotForgotten(s, req.clt, req.xid, req);
    forall e | e in s.log && e.srv == s.server.nonce && Key(e) == (req.clt, req.xid) && Key(e) !in s.server.running
      ensures StateOf(s, req) == Done(e.value)
    {
      T.PendingReplyKept(s, req.clt, req.xid, e);
    }
  }

  // ----- the clients -----

  /** How many calls the client has started. */
  function Started(steps: seq<Step>, clt: Nonce): nat {
    if steps == [] then 0
    else Started(Before(steps), clt) + if Last(steps).StartCall? && Last(steps).clt == clt then 1 else 0
  }

  predicate Over(steps: seq<Step>, clt: Nonce, xid: Xid) {
    steps != [] && (Last(steps) == Return(clt, xid) || Over(Before(steps), clt, xid))
  }

  /** The first reply the client received for the call. */
  function FirstReply(steps: seq<Step>, clt: Nonce, xid: Xid): Option<Body> {
    if steps == [] then None
    else
      var before := FirstReply(Before(steps), clt, xid);
      if before.None? && Last(steps).GotReply? && Last(steps).reply.clt == clt && Last(steps).reply.xid == xid
      then Some(Last(steps).reply.body) else before
  }

  /** What the client was told by the last bind that succeeded. */
  ghost function BoundTo(s: System, steps: seq<Step>, clt: Nonce): Option<Nonce>
    requires Run(s, steps).Some?
  {
    if steps == [] then None
    else
      var r, last := Run(s, Before(steps)).value, Last(steps);
      if && last.Return? && last.clt == clt && r.clients[clt].calls[last.xid].bind
         && FirstReply(steps, clt, last.xid).Some? && FirstReply(steps, clt, last.xid).value.Result?
      then Some(FirstReply(steps, clt, last.xid).value.value) else BoundTo(s, Before(steps), clt)
  }

  ghost predicate Knows(s: System, steps: seq<Step>, clt: Nonce)
    requires Run(s, steps).Some? && clt in Run(s, steps).value.clients
  {
    var c := Run(s, steps).value.clients[clt];
    && c.next == Started(steps, clt) + 1 && c.bound == BoundTo(s, steps, clt)
    && (forall x: Xid :: x in c.calls <==> 1 <= x <= Started(steps, clt) && !Over(steps, clt, x))
    && (forall x: Xid :: x in c.calls ==>
          c.calls[x].state == match FirstReply(steps, clt, x) case None => Waiting case Some(body) => Got(body))
    && (forall x: Xid :: x in c.reported <==> FirstReply(steps, clt, x).Some? || Over(steps, clt, x))
    && (forall x: Xid :: FirstReply(steps, clt, x).Some? || Over(steps, clt, x) ==> 1 <= x <= Started(steps, clt))
  }

  lemma {:induction false} ClientKnows(clts: set<Nonce>, nonce: Nonce, steps: seq<Step>, clt: Nonce)
    requires nonce != 0 && 0 !in clts && clt in clts && Run(Start(clts, nonce), steps).Some?
    ensures clt in Run(Start(clts, nonce), steps).value.clients && Knows(Start(clts, nonce), steps, clt)
  {
    var s0 := Start(clts, nonce);
    if steps != [] {
      var s, last := Run(s0, Before(steps)).value, Last(steps);
      ClientKnows(clts, nonce, Before(steps), clt);
      assert Reachable(s);
      ReachableOk(s);
      match last
      case StartCall(c, bind) => KnowsStart(s0, steps, clt);
      case GotReply(reply) => KnowsReply(s0, steps, clt);
      case Return(c, xid) => KnowsReturn(s0, steps, clt);
      case _ => KnowsSame(s0, steps, clt);
    }
  }

  lemma KnowsSame(s0: System, steps: seq<Step>, clt: Nonce)
    requires Run(s0, steps).Some? && steps != [] && !Last(steps).StartCall? && !Last(steps).GotReply? && !Last(steps).Return?
    requires clt in Run(s0, Before(steps)).value.clients && Knows(s0, Before(steps), clt)
    ensures clt in Run(s0, steps).value.clients && Knows(s0, steps, clt)
  {
    assert Run(s0, steps).value.clients == Run(s0, Before(steps)).value.clients;
    assert forall x: Xid :: FirstReply(steps, clt, x) == FirstReply(Before(steps), clt, x);
    assert forall x: Xid :: Over(steps, clt, x) <==> Over(Before(steps), clt, x);
  }

  lemma KnowsStart(s0: System, steps: seq<Step>, clt: Nonce)
    requires Run(s0, steps).Some? && steps != [] && Last(steps).StartCall?
    requires clt in Run(s0, Before(steps)).value.clients && Knows(s0, Before(steps), clt)
    ensures clt in Run(s0, steps).value.clients && Knows(s0, steps, clt)
  {
    assert forall x: Xid :: FirstReply(steps, clt, x) == FirstReply(Before(steps), clt, x);
    assert forall x: Xid :: Over(steps, clt, x) <==> Over(Before(steps), clt, x);
  }

  lemma KnowsReply(s0: System, steps: seq<Step>, clt: Nonce)
    requires Run(s0, steps).Some? && steps != [] && Last(steps).GotReply? && RepliesOk(Run(s0, Before(steps)).value)
    requires clt in Run(s0, Before(steps)).value.clients && Knows(s0, Before(steps), clt)
    ensures clt in Run(s0, steps).value.clients && Knows(s0, steps, clt)
  {
    var reply := Last(steps).reply;
    assert forall x: Xid :: FirstReply(steps, clt, x) ==
                            if reply.clt == clt && reply.xid == x && FirstReply(Before(steps), clt, x).None?
                            then Some(reply.body) else FirstReply(Before(steps), clt, x);
    assert forall x: Xid :: Over(steps, clt, x) <==> Over(Before(steps), clt, x);
  }

  lemma KnowsReturn(s0: System, steps: seq<Step>, clt: Nonce)
    requires Run(s0, steps).Some? && steps != [] && Last(steps).Return?
    requires clt in Run(s0, Before(steps)).value.clients && Knows(s0, Before(steps), clt)
    ensures clt in Run(s0, steps).value.clients && Knows(s0, steps, clt)
  {
    assert forall x: Xid :: FirstReply(steps, clt, x) == FirstReply(Before(steps), clt, x);
    assert forall x: Xid :: Over(steps, clt, x) <==> Over(Before(steps), clt, x) || Last(steps) == Return(clt, x);
  }

  /** The request acknowledges every call up to the largest n such that all of them were
      answered or are over. */
  ghost predicate Acknowledges(steps: seq<Step>, r: Request) {
    && (forall x: Xid | 1 <= x <= r.rep :: FirstReply(steps, r.clt, x).Some? || Over(steps, r.clt, x))
    && FirstReply(steps, r.clt, r.rep + 1).None? && !Over(steps, r.clt, r.rep + 1)
  }

  /** The next request: xids are 1, 2, 3 and so on, and the instance is the one the client
      is bound to. */
  lemma NextRequest(clts: set<Nonce>, nonce: Nonce, steps: seq<Step>, clt: Nonce, bind: bool) returns (r: Request)
    requires nonce != 0 && 0 !in clts && clt in clts && Run(Start(clts, nonce), steps).Some?
    requires Enabled(Run(Start(clts, nonce), steps).value, StartCall(clt, bind))
    ensures var s := Run(Start(clts, nonce), steps).value; Apply(s, StartCall(clt, bind)).requests == s.requests + {r}
    ensures r.clt == clt && r.xid == Started(steps, clt) + 1 && r.bind == bind && Acknowledges(steps, r)
    ensures BoundTo(Start(clts, nonce), steps, clt) == if bind then None else Some(r.srv)
    ensures bind ==> r.srv == 0
  {
    ClientKnows(clts, nonce, steps, clt);
    var s := Run(Start(clts, nonce), steps).value;
    r := NewRequest(s, clt, bind);
    FrontEnds(s.clients[clt].reported);
  }

  lemma FrontEnds(reported: set<Xid>)
    ensures forall x: Xid | 1 <= x <= A.Front(reported) :: x in reported
    ensures A.Front(reported) + 1 !in reported
  {
    assert A.AllUpTo(reported, A.Front(reported));
  }

  /** What a call comes back with is the first reply the client received for it. */
  lemma ResultIsFirstReply(clts: set<Nonce>, nonce: Nonce, steps: seq<Step>, clt: Nonce, xid: Xid)
    requires nonce != 0 && 0 !in clts && clt in clts && Run(Start(clts, nonce), steps).Some?
    ensures var s := Run(Start(clts, nonce), steps).value;
      && clt in s.clients
      && (xid in s.clients[clt].calls <==> 1 <= xid <= Started(steps, clt) && !Over(steps, clt, xid))
      && (xid in s.clients[clt].calls ==>
            s.clients[clt].calls[xid].state == match FirstReply(steps, clt, xid) case None => Waiting case Some(body) => Got(body))
  {
    ClientKnows(clts, nonce, steps, clt);
  }
}
