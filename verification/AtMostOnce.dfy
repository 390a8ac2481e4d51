/** Retransmitting RPC clients and one server address, over a network that loses,
    repeats, delays and reorders: a message once sent can be received any number of
    times, at any later time. The server may restart, with a new nonce and nothing
    remembered. Nonces are distinct and not zero. */
module AtMostOnce {
  import opened Prelude
  import opened ReplyWindow
  import A = AckWindow

  /** `srv` is 0 only in a bind request; `rep` acknowledges every xid up to it. */
  datatype Request = Request(clt: Nonce, xid: Xid, bind: bool, srv: Nonce, rep: Xid)

  datatype Body = Result(value: Value) | AtMostOnceFailure | OldServerFailure
  datatype Reply = Reply(clt: Nonce, xid: Xid, body: Body)

  datatype CallState = Waiting | Got(body: Body)
  datatype Call = Call(bind: bool, state: CallState)

  /** `next` is `xid_`, `calls` is `calls_`, `reported` what `xid_rep_window_`
      stands for, `bound` the server nonce once `bind` succeeded. */
  datatype Client = Client(next: Xid, bound: Option<Nonce>, calls: map<Xid, Call>, reported: set<Xid>)

  /** A request being served by an instance: not executed yet, or its value. */
  datatype Server = Server(nonce: Nonce, windows: map<Nonce, Window>, running: map<(Nonce, Xid), Option<Value>>)

  /** One execution of a handler. */
  datatype Exec = Exec(srv: Nonce, req: Request, value: Value)

  datatype System = System(
    clients: map<Nonce, Client>,
    server: Server,
    nonces: set<Nonce>,
    requests: set<Request>,
    replies: set<Reply>,
    log: seq<Exec>)

  datatype Step =
    | StartCall(clt: Nonce, bind: bool)
    | Receive(req: Request)
    | Execute(req: Request, value: Value)
    | Finish(clt: Nonce, xid: Xid)
    | Restart(nonce: Nonce)
    | GotReply(reply: Reply)
    | Return(clt: Nonce, xid: Xid)

  function WindowOf(s: Server, clt: Nonce): Window {
    if clt in s.windows then s.windows[clt] else EMPTY
  }

  function NewRequest(s: System, clt: Nonce, bind: bool): Request
    requires clt in s.clients && (!bind ==> s.clients[clt].bound.Some?)
  {
    var c := s.clients[clt];
    Request(clt, c.next, bind, if bind then 0 else c.bound.value, A.Front(c.reported))
  }

  /** Is the request for another instance than the one that runs? */
  predicate Old(s: System, req: Request) {
    req.srv != 0 && req.srv != s.server.nonce
  }

  predicate Enabled(s: System, step: Step) {
    match step
    case StartCall(clt, bind) => clt in s.clients && (bind <==> s.clients[clt].bound.None?)
    case Receive(req) => req in s.requests
    case Execute(req, value) =>
      && req in s.requests
      && (req.clt, req.xid) in s.server.running && s.server.running[(req.clt, req.xid)].None?
      && (req.bind ==> value == s.server.nonce)
    case Finish(clt, xid) => (clt, xid) in s.server.running && s.server.running[(clt, xid)].Some?
    case Restart(nonce) => nonce !in s.nonces && nonce != 0
    case GotReply(reply) => reply in s.replies && reply.clt in s.clients
    case Return(clt, xid) => clt in s.clients && xid in s.clients[clt].calls
  }

  /** dispatch: the check against an old instance, then the reply window. */
  function Received(s: System, req: Request): System {
    if Old(s, req) then s.(replies := s.replies + {Reply(req.clt, req.xid, OldServerFailure)})
    else
      var (w, state) := Check(WindowOf(s.server, req.clt), req.xid, req.rep);
      var t := s.(server := s.server.(windows := s.server.windows[req.clt := w]));
      match state
      case New => t.(server := t.server.(running := t.server.running[(req.clt, req.xid) := None]))
      case InProgress => t
      case Done(value) => t.(replies := t.replies + {Reply(req.clt, req.xid, Result(value))})
      case Forgotten => t.(replies := t.replies + {Reply(req.clt, req.xid, AtMostOnceFailure)})
  }

  function Finished(s: System, clt: Nonce, xid: Xid): System
    requires Enabled(s, Finish(clt, xid))
  {
    var value := s.server.running[(clt, xid)].value;
    s.(server := s.server.(windows := s.server.windows[clt := AddReply(WindowOf(s.server, clt), xid, value)],
                           running := s.server.running - {(clt, xid)}),
       replies := s.replies + {Reply(clt, xid, Result(value))})
  }

  /** got_pdu: the xid is reported whether or not a call waits for it. */
  function Delivered(c: Client, reply: Reply): Client {
    var d := c.(reported := c.reported + {reply.xid});
    if reply.xid in c.calls && c.calls[reply.xid].state.Waiting?
    then d.(calls := d.calls[reply.xid := c.calls[reply.xid].(state := Got(reply.body))]) else d
  }

  /** The end of call1, with a reply or after the last timeout; a successful bind
      keeps the nonce it was told. */
  function Returned(s: System, clt: Nonce, xid: Xid): Client
    requires Enabled(s, Return(clt, xid))
  {
    var c := s.clients[clt];
    var d := c.(calls := c.calls - {xid}, reported := c.reported + {xid});
    var call := c.calls[xid];
    if call.bind && call.state.Got? && call.state.body.Result?
    then d.(bound := Some(call.state.body.value)) else d
  }

  function Apply(s: System, step: Step): System
    requires Enabled(s, step)
  {
    match step
    case StartCall(clt, bind) =>
      var c := s.clients[clt];
      s.(clients := s.clients[clt := c.(next := c.next + 1, calls := c.calls[c.next := Call(bind, Waiting)])],
         requests := s.requests + {NewRequest(s, clt, bind)})
    case Receive(req) => Received(s, req)
    case Execute(req, value) =>
      s.(server := s.server.(running := s.server.running[(req.clt, req.xid) := Some(value)]),
         log := s.log + [Exec(s.server.nonce, req, value)])
    case Finish(clt, xid) => Finished(s, clt, xid)
    case Restart(nonce) => s.(server := Server(nonce, map[], map[]), nonces := s.nonces + {nonce})
    case GotReply(reply) => s.(clients := s.clients[reply.clt := Delivered(s.clients[reply.clt], reply)])
    case Return(clt, xid) => s.(clients := s.clients[clt := Returned(s, clt, xid)])
  }

  /** xids start at 1, and nothing is reported. */
  function Start(clts: set<Nonce>, nonce: Nonce): System {
    System(map c | c in clts :: Client(1, None, map[], {}), Server(nonce, map[], map[]), {nonce}, {}, {}, [])
  }

  function Run(s: System, steps: seq<Step>): Option<System> {
    if steps == [] then Some(s)
    else
      var before := Run(s, steps[..|steps| - 1]);
      var last := steps[|steps| - 1];
      if before.Some? && Enabled(before.value, last) then Some(Apply(before.value, last)) else None
  }

  ghost predicate Reachable(s: System) {
    exists clts, nonce, steps :: nonce != 0 && 0 !in clts && Run(Start(clts, nonce), steps) == Some(s)
  }

  // ----- invariants -----

  ghost predicate ClientOk(c: Client) {
    && c.next >= 1
    && (forall x :: x in c.reported || x in c.calls ==> 1 <= x < c.next)
    && (forall x :: x in c.calls && c.calls[x].state.Waiting? ==> x !in c.reported)
  }

  /** What is true of a request since it was sent. */
  ghost predicate RequestOk(s: System, r: Request) {
    && r.clt in s.clients
    && 1 <= r.xid < s.clients[r.clt].next
    && r.rep <= A.Front(s.clients[r.clt].reported)
    && (if r.srv == 0 then r.bind else r.srv in s.nonces)
  }

  ghost predicate BindsOk(s: System) {
    forall r :: r in s.requests && r.clt in s.clients && r.xid in s.clients[r.clt].calls ==>
      s.clients[r.clt].calls[r.xid].bind == r.bind
  }

  ghost predicate CallsAsked(s: System) {
    forall clt, x :: clt in s.clients && x in s.clients[clt].calls ==>
      exists r :: r in s.requests && r.clt == clt && r.xid == x
  }

  ghost predicate KeysOk(s: System) {
    forall r, q :: r in s.requests && q in s.requests && r.clt == q.clt && r.xid == q.xid ==> r == q
  }

  ghost predicate RequestsOk(s: System) {
    BindsOk(s) && CallsAsked(s) && (forall r :: r in s.requests ==> RequestOk(s, r)) && KeysOk(s)
  }

  /** The server never acknowledges more than the client did. */
  ghost predicate WindowsOk(s: System) {
    forall clt :: clt in s.server.windows ==>
      && Valid(s.server.windows[clt])
      && clt in s.clients
      && s.server.windows[clt].watermark <= A.Front(s.clients[clt].reported)
  }

  ghost predicate Tracked(s: Server, clt: Nonce, xid: Xid) {
    xid <= WindowOf(s, clt).watermark || xid in WindowOf(s, clt).replies
  }

  /** Where the value of a request this instance executed is kept. */
  ghost predicate ValueKept(s: Server, clt: Nonce, xid: Xid, value: Value) {
    || xid <= WindowOf(s, clt).watermark
    || (xid in WindowOf(s, clt).replies
        && if (clt, xid) in s.running then s.running[(clt, xid)] == Some(value)
           else WindowOf(s, clt).replies[xid] == Some(value))
  }

  function Key(e: Exec): (Nonce, Xid) {
    (e.req.clt, e.req.xid)
  }

  ghost predicate Logged(s: System, clt: Nonce, xid: Xid, value: Value) {
    exists e :: e in s.log && Key(e) == (clt, xid) && e.value == value
  }

  ghost predicate RunningOk(s: System) {
    && (forall j :: j in s.server.running ==>
          Tracked(s.server, j.0, j.1) && j.0 in s.clients && j.1 < s.clients[j.0].next)
    && (forall r :: r in s.requests && (r.clt, r.xid) in s.server.running ==> !Old(s, r))
  }

  /** A request not executed yet is not in the log of this instance. */
  ghost predicate NotYet(s: System) {
    forall e :: e in s.log && e.srv == s.server.nonce && Key(e) in s.server.running ==>
      s.server.running[Key(e)] == Some(e.value)
  }

  /** Values held by the server come from executions. */
  ghost predicate ValuesLogged(s: System) {
    && (forall j :: j in s.server.running && s.server.running[j].Some? ==>
          Logged(s, j.0, j.1, s.server.running[j].value))
    && (forall clt, x | clt in s.server.windows && x in s.server.windows[clt].replies ::
          s.server.windows[clt].replies[x].Some? ==> Logged(s, clt, x, s.server.windows[clt].replies[x].value))
  }

  ghost predicate NoncesOk(s: System) {
    && s.server.nonce in s.nonces && 0 !in s.nonces
    && (forall clt :: clt in s.clients && s.clients[clt].bound.Some? ==> s.clients[clt].bound.value in s.nonces)
  }

  ghost predicate LogOk(s: System) {
    forall e :: e in s.log ==>
      && e.req in s.requests && e.srv in s.nonces
      && (e.req.srv != 0 ==> e.req.srv == e.srv)
      && (e.req.bind ==> e.value == e.srv)
  }

  /** What this instance executed is in its reply window or acknowledged. */
  ghost predicate ValuesKept(s: System) {
    forall e :: e in s.log && e.srv == s.server.nonce ==> ValueKept(s.server, e.req.clt, e.req.xid, e.value)
  }

  /** No instance executes a request twice. */
  ghost predicate OncePerInstance(s: System) {
    forall i, j :: 0 <= i < j < |s.log| && s.log[i].srv == s.log[j].srv ==> s.log[i].req != s.log[j].req
  }

  ghost predicate RepliesOk(s: System) {
    forall m :: m in s.replies ==>
      && m.clt in s.clients && 1 <= m.xid < s.clients[m.clt].next
      && (m.body.Result? ==> Logged(s, m.clt, m.xid, m.body.value))
      && (m.body.AtMostOnceFailure? ==> m.xid in s.clients[m.clt].reported)
      && (m.body.OldServerFailure? ==> s.nonces != {s.server.nonce})
  }

  ghost predicate CallsOk(s: System) {
    forall clt, x :: clt in s.clients && x in s.clients[clt].calls && s.clients[clt].calls[x].state.Got? ==>
      Reply(clt, x, s.clients[clt].calls[x].state.body) in s.replies
  }

  ghost predicate Inv(s: System) {
    && (forall clt :: clt in s.clients ==> ClientOk(s.clients[clt]))
    && RequestsOk(s) && WindowsOk(s) && RunningOk(s) && NotYet(s) && ValuesLogged(s)
    && NoncesOk(s) && LogOk(s) && ValuesKept(s) && OncePerInstance(s)
    && RepliesOk(s) && CallsOk(s)
  }
}
