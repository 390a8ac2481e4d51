/** What every step of the RPC protocol keeps, and what holds in every run. */
module AtMostOnceSafety {
  import opened Prelude
  import opened ReplyWindow
  import opened AtMostOnce
  import A = AckWindow

  // ----- what a step that only adds keeps -----

  ghost predicate ClientsGrow(s: System, s': System) {
    && s'.clients.Keys == s.clients.Keys
    && (forall clt :: clt in s.clients ==>
          s.clients[clt].next <= s'.clients[clt].next && s.clients[clt].reported <= s'.clients[clt].reported)
  }

  lemma FrontsGrow(s: System, s': System, clt: Nonce)
    requires ClientsGrow(s, s') && clt in s.clients
    ensures A.Front(s.clients[clt].reported) <= A.Front(s'.clients[clt].reported)
  {
    A.FrontGrows(s.clients[clt].reported, s'.clients[clt].reported);
  }

  lemma WindowsStay(s: System, s': System)
    requires WindowsOk(s) && ClientsGrow(s, s') && s'.server.windows == s.server.windows
    ensures WindowsOk(s')
  {
    forall clt | clt in s.server.windows
      ensures s'.server.windows[clt].watermark <= A.Front(s'.clients[clt].reported)
    {
      FrontsGrow(s, s', clt);
    }
  }

  lemma RequestStays(s: System, s': System, r: Request)
    requires RequestOk(s, r) && ClientsGrow(s, s') && s.nonces <= s'.nonces
    ensures RequestOk(s', r)
  {
    FrontsGrow(s, s', r.clt);
  }

  lemma LoggedStays(s: System, s': System, clt: Nonce, xid: Xid, value: Value)
    requires s.log <= s'.log && Logged(s, clt, xid, value)
    ensures Logged(s', clt, xid, value)
  {
    var e :| e in s.log && Key(e) == (clt, xid) && e.value == value;
    assert e in s'.log;
  }

  /** Old replies stay right; `extra` are the new ones. */
  lemma RepliesStay(s: System, s': System, extra: set<Reply>)
    requires RepliesOk(s) && ClientsGrow(s, s') && s.log <= s'.log
    requires s'.nonces == s.nonces && s'.server.nonce == s.server.nonce
    requires s'.replies == s.replies + extra
    requires RepliesOk(s'.(replies := extra))
    ensures RepliesOk(s')
  {
    forall m | m in s'.replies
      ensures && m.clt in s'.clients && 1 <= m.xid < s'.clients[m.clt].next
              && (m.body.Result? ==> Logged(s', m.clt, m.xid, m.body.value))
              && (m.body.AtMostOnceFailure? ==> m.xid in s'.clients[m.clt].reported)
              && (m.body.OldServerFailure? ==> s'.nonces != {s'.server.nonce})
    {
      if m in extra {
        var t := s'.(replies := extra);
        assert m in t.replies;
        if m.body.Result? {
          LoggedStays(t, s', m.clt, m.xid, m.body.value);
        }
      } else if m.body.Result? {
        LoggedStays(s, s', m.clt, m.xid, m.body.value);
      }
    }
  }

  // ----- client steps -----

  ghost predicate NetworkSame(s: System, s': System) {
    s'.server == s.server && s'.nonces == s.nonces && s'.replies == s.replies && s'.log == s.log
  }

  /** The server's own invariants do not look at clients beyond their counters. */
  lemma ServerStays(s: System, s': System)
    requires NetworkSame(s, s') && ClientsGrow(s, s') && s.requests <= s'.requests
    requires RunningOk(s) && NotYet(s) && ValuesLogged(s) && LogOk(s) && ValuesKept(s) && OncePerInstance(s)
    requires forall r :: r in s'.requests && r !in s.requests ==> (r.clt, r.xid) !in s.server.running
    ensures RunningOk(s') && NotYet(s') && ValuesLogged(s') && LogOk(s') && ValuesKept(s') && OncePerInstance(s')
  {
    forall clt, xid, value | Logged(s, clt, xid, value) ensures Logged(s', clt, xid, value) {
      LoggedStays(s, s', clt, xid, value);
    }
  }

  lemma RequestsAdd(s: System, s': System, r: Request)
    requires RequestsOk(s) && ClientsGrow(s, s') && s'.nonces == s.nonces && r.clt in s.clients
    requires s'.requests == s.requests + {r} && RequestOk(s', r)
    requires r.xid == s.clients[r.clt].next
    requires s'.clients[r.clt].calls == s.clients[r.clt].calls[r.xid := Call(r.bind, Waiting)]
    requires forall clt :: clt in s.clients && clt != r.clt ==> s'.clients[clt].calls == s.clients[clt].calls
    ensures RequestsOk(s')
  {
    forall q | q in s.requests ensures RequestOk(s', q) {
      RequestStays(s, s', q);
    }
    NewKey(s, r);
    OneRequest(s, s', r);
    AllAsked(s, s', r);
  }

  lemma OneRequest(s: System, s': System, r: Request)
    requires BindsOk(s) && KeysOk(s) && s'.requests == s.requests + {r} && s'.clients.Keys == s.clients.Keys
    requires r.clt in s.clients && forall q :: q in s.requests && q.clt == r.clt ==> q.xid != r.xid
    requires s'.clients[r.clt].calls == s.clients[r.clt].calls[r.xid := Call(r.bind, Waiting)]
    requires forall clt :: clt in s.clients && clt != r.clt ==> s'.clients[clt].calls == s.clients[clt].calls
    ensures BindsOk(s') && KeysOk(s')
  {
  }

  /** The new request has a number no request had. */
  lemma NewKey(s: System, r: Request)
    requires (forall q :: q in s.requests ==> RequestOk(s, q)) && r.clt in s.clients && r.xid == s.clients[r.clt].next
    ensures forall q :: q in s.requests && q.clt == r.clt ==> q.xid != r.xid
  {
    forall q | q in s.requests && q.clt == r.clt ensures q.xid != r.xid {
      assert RequestOk(s, q);
    }
  }

  lemma AllAsked(s: System, s': System, r: Request)
    requires CallsAsked(s) && s'.requests == s.requests + {r} && s'.clients.Keys == s.clients.Keys && r.clt in s.clients
    requires s'.clients[r.clt].calls.Keys == s.clients[r.clt].calls.Keys + {r.xid}
    requires forall c :: c in s.clients && c != r.clt ==> s'.clients[c].calls == s.clients[c].calls
    ensures CallsAsked(s')
  {
    forall c, x | c in s'.clients && x in s'.clients[c].calls
      ensures exists q :: q in s'.requests && q.clt == c && q.xid == x
    {
      if c == r.clt && x == r.xid {
        assert r in s'.requests;
      } else {
        var q :| q in s.requests && q.clt == c && q.xid == x;
        assert q in s'.requests;
      }
    }
  }

  lemma NewRequestOk(s: System, clt: Nonce, bind: bool)
    requires Inv(s) && Enabled(s, StartCall(clt, bind))
    ensures var s' := Apply(s, StartCall(clt, bind)); ClientsGrow(s, s') && RequestsOk(s')
    ensures (clt, s.clients[clt].next) !in s.server.running
  {
    assert ClientOk(s.clients[clt]);
    RequestsAdd(s, Apply(s, StartCall(clt, bind)), NewRequest(s, clt, bind));
  }

  /** A step of a client keeps the rest. */
  lemma GrownKeeps(s: System, s': System)
    requires Inv(s) && NetworkSame(s, s') && ClientsGrow(s, s') && s.requests <= s'.requests
    requires forall r :: r in s'.requests && r !in s.requests ==> (r.clt, r.xid) !in s.server.running
    requires forall clt :: clt in s'.clients ==> ClientOk(s'.clients[clt])
    requires RequestsOk(s') && NoncesOk(s') && CallsOk(s')
    ensures Inv(s')
  {
    WindowsStay(s, s');
    ServerStays(s, s');
    RepliesStay(s, s', {});
  }

  lemma StartCallClientOk(s: System, clt: Nonce, bind: bool)
    requires Inv(s) && Enabled(s, StartCall(clt, bind))
    ensures var s' := Apply(s, StartCall(clt, bind));
      (forall c :: c in s'.clients ==> ClientOk(s'.clients[c])) && NoncesOk(s') && CallsOk(s')
  {
    assert ClientOk(s.clients[clt]);
    assert ClientOk(Apply(s, StartCall(clt, bind)).clients[clt]);
  }

  lemma StartCallKeeps(s: System, clt: Nonce, bind: bool)
    requires Inv(s) && Enabled(s, StartCall(clt, bind))
    ensures Inv(Apply(s, StartCall(clt, bind)))
  {
    NewRequestOk(s, clt, bind);
    StartCallClientOk(s, clt, bind);
    GrownKeeps(s, Apply(s, StartCall(clt, bind)));
  }

  /** The client after a reply came in or a call ended: it waits for less. */
  ghost predicate Waits(c: Client, d: Client) {
    && d.next == c.next && d.calls.Keys <= c.calls.Keys
    && (forall x :: x in d.calls ==> d.calls[x].bind == c.calls[x].bind)
  }

  lemma RequestsStay(s: System, s': System, clt: Nonce, d: Client)
    requires RequestsOk(s) && clt in s.clients && Waits(s.clients[clt], d)
    requires s.clients[clt].reported <= d.reported
    requires s' == s.(clients := s.clients[clt := d])
    ensures RequestsOk(s')
  {
    forall r | r in s.requests ensures RequestOk(s', r) {
      RequestStays(s, s', r);
    }
  }

  lemma ClientStepKeeps(s: System, s': System, clt: Nonce, d: Client)
    requires Inv(s) && clt in s.clients && Waits(s.clients[clt], d) && ClientOk(d)
    requires s.clients[clt].reported <= d.reported
    requires s' == s.(clients := s.clients[clt := d])
    requires d.bound.Some? ==> d.bound.value in s.nonces
    requires forall x :: x in d.calls && d.calls[x].state.Got? ==> Reply(clt, x, d.calls[x].state.body) in s.replies
    ensures Inv(s')
  {
    RequestsStay(s, s', clt, d);
    GrownKeeps(s, s');
  }

  lemma GotReplyKeeps(s: System, reply: Reply)
    requires Inv(s) && Enabled(s, GotReply(reply))
    ensures Inv(Apply(s, GotReply(reply)))
  {
    ClientStepKeeps(s, Apply(s, GotReply(reply)), reply.clt, Delivered(s.clients[reply.clt], reply));
  }

  /** What a bind was told is the nonce of an instance. */
  lemma BoundToInstance(s: System, clt: Nonce, xid: Xid)
    requires Inv(s) && clt in s.clients && xid in s.clients[clt].calls && s.clients[clt].calls[xid].bind
    requires s.clients[clt].calls[xid].state.Got? && s.clients[clt].calls[xid].state.body.Result?
    ensures s.clients[clt].calls[xid].state.body.value in s.nonces
  {
    var value := s.clients[clt].calls[xid].state.body.value;
    assert Reply(clt, xid, Result(value)) in s.replies;
    assert Logged(s, clt, xid, value);
    var e :| e in s.log && Key(e) == (clt, xid) && e.value == value;
    assert e.req in s.requests;
  }

  lemma ReturnKeeps(s: System, clt: Nonce, xid: Xid)
    requires Inv(s) && Enabled(s, Return(clt, xid))
    ensures Inv(Apply(s, Return(clt, xid)))
  {
    var call := s.clients[clt].calls[xid];
    if call.bind && call.state.Got? && call.state.body.Result? {
      BoundToInstance(s, clt, xid);
    }
    ClientStepKeeps(s, Apply(s, Return(clt, xid)), clt, Returned(s, clt, xid));
  }

  // ----- server steps -----

  lemma RestartKeeps(s: System, nonce: Nonce)
    requires Inv(s) && Enabled(s, Restart(nonce))
    ensures Inv(Apply(s, Restart(nonce)))
  {
    var s' := Apply(s, Restart(nonce));
    assert s.server.nonce in s'.nonces;
    assert RequestsOk(s');
    forall m | m in s.replies && m.body.Result? ensures Logged(s', m.clt, m.xid, m.body.value) {
      LoggedStays(s, s', m.clt, m.xid, m.body.value);
    }
    assert RepliesOk(s');
  }

  lemma ExecuteRuns(s: System, req: Request, value: Value)
    requires Enabled(s, Execute(req, value)) && RunningOk(s) && NotYet(s) && ValuesLogged(s)
    ensures var s' := Apply(s, Execute(req, value)); RunningOk(s') && NotYet(s') && ValuesLogged(s')
  {
    var s' := Apply(s, Execute(req, value));
    var e := Exec(s.server.nonce, req, value);
    assert s'.log[|s.log|] == e;
    forall clt, xid, v | Logged(s, clt, xid, v) ensures Logged(s', clt, xid, v) {
      LoggedStays(s, s', clt, xid, v);
    }
    assert Logged(s', req.clt, req.xid, value);
    assert RunningOk(s');
  }

  lemma ExecuteLogs(s: System, req: Request, value: Value)
    requires Enabled(s, Execute(req, value)) && RunningOk(s) && NotYet(s)
    requires NoncesOk(s) && LogOk(s) && ValuesKept(s) && OncePerInstance(s)
    ensures var s' := Apply(s, Execute(req, value)); LogOk(s') && ValuesKept(s') && OncePerInstance(s')
  {
    var s' := Apply(s, Execute(req, value));
    assert Tracked(s.server, req.clt, req.xid) && !Old(s, req);
    forall e | e in s.log && e.srv == s.server.nonce
      ensures e.req != req && ValueKept(s'.server, e.req.clt, e.req.xid, e.value)
    {
      assert Key(e) != (req.clt, req.xid);
    }
  }

  /** A server step leaves the clients' side alone. */
  ghost predicate ServerStep(s: System, s': System) {
    s'.clients == s.clients && s'.requests == s.requests && s'.nonces == s.nonces
    && s'.server.nonce == s.server.nonce && s.replies <= s'.replies
  }

  lemma ClientSideStays(s: System, s': System)
    requires Inv(s) && ServerStep(s, s')
    ensures forall clt :: clt in s'.clients ==> ClientOk(s'.clients[clt])
    ensures RequestsOk(s') && NoncesOk(s') && CallsOk(s')
  {
    forall r | r in s'.requests ensures RequestOk(s', r) {
      assert RequestOk(s, r);
    }
  }

  lemma ExecuteKeeps(s: System, req: Request, value: Value)
    requires Inv(s) && Enabled(s, Execute(req, value))
    ensures Inv(Apply(s, Execute(req, value)))
  {
    var s' := Apply(s, Execute(req, value));
    ClientSideStays(s, s');
    ExecuteLogs(s, req, value);
    ExecuteRuns(s, req, value);
    RepliesStay(s, s', {});
    WindowsStay(s, s');
  }

  lemma FinishValuesKept(s: System, clt: Nonce, xid: Xid)
    requires Enabled(s, Finish(clt, xid)) && ValuesKept(s) && NotYet(s)
    ensures var s' := Apply(s, Finish(clt, xid)); ValuesKept(s') && NotYet(s')
  {
    var s' := Apply(s, Finish(clt, xid));
    forall e | e in s.log && e.srv == s.server.nonce
      ensures ValueKept(s'.server, e.req.clt, e.req.xid, e.value)
    {
      assert ValueKept(s.server, e.req.clt, e.req.xid, e.value);
    }
  }

  lemma FinishValuesLogged(s: System, clt: Nonce, xid: Xid)
    requires Enabled(s, Finish(clt, xid)) && ValuesLogged(s)
    ensures ValuesLogged(Apply(s, Finish(clt, xid)))
  {
    var s' := Apply(s, Finish(clt, xid));
    assert Logged(s, clt, xid, s.server.running[(clt, xid)].value);
    forall c, x, v | Logged(s, c, x, v) ensures Logged(s', c, x, v) {
      LoggedStays(s, s', c, x, v);
    }
  }

  lemma FinishRuns(s: System, clt: Nonce, xid: Xid)
    requires Enabled(s, Finish(clt, xid)) && RunningOk(s) && WindowsOk(s)
    ensures var s' := Apply(s, Finish(clt, xid)); RunningOk(s') && WindowsOk(s')
  {
  }

  lemma FinishReplies(s: System, clt: Nonce, xid: Xid)
    requires Inv(s) && Enabled(s, Finish(clt, xid))
    ensures RepliesOk(Apply(s, Finish(clt, xid)))
  {
    var s' := Apply(s, Finish(clt, xid));
    var value := s.server.running[(clt, xid)].value;
    assert Logged(s, clt, xid, value);
    LoggedStays(s, s', clt, xid, value);
    RepliesStay(s, s', {Reply(clt, xid, Result(value))});
  }

  lemma FinishKeeps(s: System, clt: Nonce, xid: Xid)
    requires Inv(s) && Enabled(s, Finish(clt, xid))
    ensures Inv(Apply(s, Finish(clt, xid)))
  {
    ClientSideStays(s, Apply(s, Finish(clt, xid)));
    FinishValuesKept(s, clt, xid);
    FinishValuesLogged(s, clt, xid);
    FinishRuns(s, clt, xid);
    FinishReplies(s, clt, xid);
  }

  // ----- receiving a request -----

  ghost function After(s: System, req: Request): Window {
    Check(WindowOf(s.server, req.clt), req.xid, req.rep).0
  }

  ghost function StateOf(s: System, req: Request): State {
    Check(WindowOf(s.server, req.clt), req.xid, req.rep).1
  }

  ghost predicate Fresh(s: System, req: Request) {
    req in s.requests && !Old(s, req)
  }

  lemma ReceiveWindows(s: System, req: Request)
    requires Fresh(s, req) && WindowsOk(s) && RequestsOk(s)
    ensures WindowsOk(Received(s, req))
  {
    assert RequestOk(s, req);
  }

  /** A request is new only if this instance never executed it and does not have
      it in hand. */
  lemma NewIsNew(s: System, req: Request)
    requires RunningOk(s) && ValuesKept(s) && StateOf(s, req).New?
    ensures (req.clt, req.xid) !in s.server.running
    ensures forall e :: e in s.log && e.srv == s.server.nonce ==> Key(e) != (req.clt, req.xid)
  {
    var w := WindowOf(s.server, req.clt);
    assert req.xid > w.watermark && req.xid !in w.replies;
    forall e | e in s.log && e.srv == s.server.nonce ensures Key(e) != (req.clt, req.xid) {
      assert ValueKept(s.server, e.req.clt, e.req.xid, e.value);
    }
  }

  lemma TrackedStays(s: System, req: Request, clt: Nonce, xid: Xid)
    requires Fresh(s, req) && Tracked(s.server, clt, xid)
    ensures Tracked(Received(s, req).server, clt, xid)
  {
  }

  lemma ReceiveRuns(s: System, req: Request)
    requires Fresh(s, req) && RequestsOk(s) && RunningOk(s)
    ensures RunningOk(Received(s, req))
  {
    var s' := Received(s, req);
    assert RequestOk(s, req);
    forall j | j in s'.server.running ensures Tracked(s'.server, j.0, j.1) {
      if j in s.server.running {
        TrackedStays(s, req, j.0, j.1);
      }
    }
  }

  lemma ReceiveNotYet(s: System, req: Request)
    requires Fresh(s, req) && RunningOk(s) && ValuesKept(s) && NotYet(s)
    ensures NotYet(Received(s, req))
  {
    if StateOf(s, req).New? {
      NewIsNew(s, req);
    }
  }

  lemma ReceiveValuesKept(s: System, req: Request)
    requires Fresh(s, req) && RunningOk(s) && ValuesKept(s)
    ensures ValuesKept(Received(s, req))
  {
    var s' := Received(s, req);
    if StateOf(s, req).New? {
      NewIsNew(s, req);
    }
    forall e | e in s.log && e.srv == s.server.nonce
      ensures ValueKept(s'.server, e.req.clt, e.req.xid, e.value)
    {
      assert ValueKept(s.server, e.req.clt, e.req.xid, e.value);
    }
  }

  lemma ReceiveValuesLogged(s: System, req: Request)
    requires Fresh(s, req) && ValuesLogged(s)
    ensures ValuesLogged(Received(s, req))
  {
    var s' := Received(s, req);
    forall c, x, v | Logged(s, c, x, v) ensures Logged(s', c, x, v) {
      LoggedStays(s, s', c, x, v);
    }
  }

  lemma OldReplies(s: System, req: Request)
    requires req in s.requests && Old(s, req) && RequestsOk(s) && RepliesOk(s)
    ensures RepliesOk(Received(s, req))
  {
    assert RequestOk(s, req);
    assert req.srv in s.nonces && req.srv !in {s.server.nonce};
    RepliesStay(s, Received(s, req), {Reply(req.clt, req.xid, OldServerFailure)});
  }

  lemma DoneReplies(s: System, req: Request)
    requires Fresh(s, req) && RequestsOk(s) && ValuesLogged(s) && RepliesOk(s) && StateOf(s, req).Done?
    ensures RepliesOk(Received(s, req))
  {
    var s' := Received(s, req);
    var value := StateOf(s, req).value;
    assert RequestOk(s, req);
    assert Logged(s, req.clt, req.xid, value);
    LoggedStays(s, s', req.clt, req.xid, value);
    RepliesStay(s, s', {Reply(req.clt, req.xid, Result(value))});
  }

  /** FORGOTTEN is only said of an xid the client has reported. */
  lemma ForgottenReplies(s: System, req: Request)
    requires Fresh(s, req) && RequestsOk(s) && WindowsOk(s) && RepliesOk(s) && StateOf(s, req).Forgotten?
    ensures RepliesOk(Received(s, req))
  {
    var reported := s.clients[req.clt].reported;
    assert RequestOk(s, req);
    ReceiveWindows(s, req);
    assert After(s, req).watermark <= A.Front(reported);
    assert A.AllUpTo(reported, A.Front(reported));
    RepliesStay(s, Received(s, req), {Reply(req.clt, req.xid, AtMostOnceFailure)});
  }

  lemma ReceiveReplies(s: System, req: Request)
    requires Inv(s) && Fresh(s, req)
    ensures RepliesOk(Received(s, req))
  {
    match StateOf(s, req)
    case New => RepliesStay(s, Received(s, req), {});
    case InProgress => RepliesStay(s, Received(s, req), {});
    case Done(value) => DoneReplies(s, req);
    case Forgotten => ForgottenReplies(s, req);
  }

  lemma OldKeeps(s: System, req: Request)
    requires Inv(s) && req in s.requests && Old(s, req)
    ensures Inv(Received(s, req))
  {
    var s' := Received(s, req);
    OldReplies(s, req);
    ClientSideStays(s, s');
    forall c, x, v | Logged(s, c, x, v) ensures Logged(s', c, x, v) {
      LoggedStays(s, s', c, x, v);
    }
  }

  lemma ReceiveKeeps(s: System, req: Request)
    requires Inv(s) && Fresh(s, req)
    ensures Inv(Received(s, req))
  {
    ReceiveReplies(s, req);
    ClientSideStays(s, Received(s, req));
    ReceiveWindows(s, req);
    ReceiveRuns(s, req);
    ReceiveNotYet(s, req);
    ReceiveValuesKept(s, req);
    ReceiveValuesLogged(s, req);
    assert Received(s, req).log == s.log;
  }

  lemma StepKeeps(s: System, step: Step)
    requires Inv(s) && Enabled(s, step)
    ensures Inv(Apply(s, step))
  {
    match step
    case StartCall(clt, bind) => StartCallKeeps(s, clt, bind);
    case Receive(req) => if Old(s, req) { OldKeeps(s, req); } else { ReceiveKeeps(s, req); }
    case Execute(req, value) => ExecuteKeeps(s, req, value);
    case Finish(clt, xid) => FinishKeeps(s, clt, xid);
    case Restart(nonce) => RestartKeeps(s, nonce);
    case GotReply(reply) => GotReplyKeeps(s, reply);
    case Return(clt, xid) => ReturnKeeps(s, clt, xid);
  }

  lemma {:induction false} RunKeeps(s: System, steps: seq<Step>)
    requires Inv(s) && Run(s, steps).Some?
    ensures Inv(Run(s, steps).value)
  {
    if steps != [] {
      RunKeeps(s, steps[..|steps| - 1]);
      StepKeeps(Run(s, steps[..|steps| - 1]).value, steps[|steps| - 1]);
    }
  }

  lemma ReachableOk(s: System)
    requires Reachable(s)
    ensures Inv(s)
  {
    var clts, nonce, steps :| nonce != 0 && 0 !in clts && Run(Start(clts, nonce), steps) == Some(s);
    RunKeeps(Start(clts, nonce), steps);
  }
}
