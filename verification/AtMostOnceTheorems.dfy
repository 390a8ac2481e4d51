/** What RPC guarantees in every reachable state. */
module AtMostOnceTheorems {
  import opened Prelude
  import opened ReplyWindow
  import opened AtMostOnce
  import opened AtMostOnceSafety
  import A = AckWindow

  /** Over any loss, repetition, reordering and restarts, the handler of a request
      other than bind runs at most once. */
  lemma RunsAtMostOnce(s: System, i: nat, j: nat)
    requires Reachable(s) && i < j < |s.log|
    requires !s.log[i].req.bind && !s.log[j].req.bind
    ensures Key(s.log[i]) != Key(s.log[j])
  {
    ReachableOk(s);
    var e, f := s.log[i], s.log[j];
    assert e in s.log && f in s.log;
    assert RequestOk(s, e.req) && RequestOk(s, f.req);
  }

  /** What the running instance executed is in its reply window, or at or below
      the watermark, where the client has acknowledged it. */
  lemma ExecutedIsTracked(s: System, e: Exec)
    requires Reachable(s) && e in s.log && e.srv == s.server.nonce
    ensures e.req.clt in s.clients
    ensures var w := WindowOf(s.server, e.req.clt);
      if e.req.xid <= w.watermark then e.req.xid in s.clients[e.req.clt].reported
      else e.req.xid in w.replies
  {
    ReachableOk(s);
    assert RequestOk(s, e.req);
    assert ValueKept(s.server, e.req.clt, e.req.xid, e.value);
    var reported := s.clients[e.req.clt].reported;
    assert A.AllUpTo(reported, A.Front(reported));
  }

  ghost predicate IsWaiting(s: System, clt: Nonce, xid: Xid) {
    clt in s.clients && xid in s.clients[clt].calls && s.clients[clt].calls[xid].state.Waiting?
  }

  /** While a call has no reply, the server has not acknowledged it: its request
      cannot be answered FORGOTTEN and no such answer is on the way. */
  lemma PendingNotForgotten(s: System, clt: Nonce, xid: Xid, req: Request)
    requires Reachable(s) && IsWaiting(s, clt, xid)
    requires req in s.requests && req.clt == clt && req.xid == xid
    ensures WindowOf(s.server, clt).watermark < xid
    ensures !StateOf(s, req).Forgotten?
    ensures Reply(clt, xid, AtMostOnceFailure) !in s.replies
  {
    ReachableOk(s);
    var reported := s.clients[clt].reported;
    assert ClientOk(s.clients[clt]) && RequestOk(s, req);
    assert xid !in reported;
    assert A.AllUpTo(reported, A.Front(reported));
    assert A.Front(reported) < xid;
  }

  /** The saved reply of a pending call is not erased: once executed and answered
      by the running instance, its value is in the reply window. */
  lemma PendingReplyKept(s: System, clt: Nonce, xid: Xid, e: Exec)
    requires Reachable(s) && IsWaiting(s, clt, xid)
    requires e in s.log && e.srv == s.server.nonce && Key(e) == (clt, xid)
    requires (clt, xid) !in s.server.running
    ensures xid in WindowOf(s.server, clt).replies
    ensures WindowOf(s.server, clt).replies[xid] == Some(e.value)
  {
    ReachableOk(s);
    PendingNotForgotten(s, clt, xid, e.req);
    assert ValueKept(s.server, e.req.clt, e.req.xid, e.value);
  }

  /** A reply to a pending call carries the value of an execution. */
  lemma ReplyIsLogged(s: System, m: Reply)
    requires Reachable(s) && s.nonces == {s.server.nonce}
    requires m in s.replies && IsWaiting(s, m.clt, m.xid)
    ensures m.body.Result? && Logged(s, m.clt, m.xid, m.body.value)
  {
    ReachableOk(s);
    var r :| r in s.requests && r.clt == m.clt && r.xid == m.xid;
    PendingNotForgotten(s, m.clt, m.xid, r);
  }

  lemma LoggedAt(s: System, clt: Nonce, xid: Xid, value: Value) returns (i: nat)
    requires Logged(s, clt, xid, value)
    ensures i < |s.log| && Key(s.log[i]) == (clt, xid) && s.log[i].value == value
  {
    var e :| e in s.log && Key(e) == (clt, xid) && e.value == value;
    i :| 0 <= i < |s.log| && s.log[i] == e;
  }

  /** With one server instance a call has one entry in the log. */
  lemma RunOnceHere(s: System, i: nat, j: nat)
    requires Inv(s) && s.nonces == {s.server.nonce} && i < |s.log| && j < |s.log| && Key(s.log[i]) == Key(s.log[j])
    ensures i == j
  {
    assert s.log[i] in s.log && s.log[i].req in s.requests && s.log[i].srv in s.nonces;
    assert s.log[j] in s.log && s.log[j].req in s.requests && s.log[j].srv in s.nonces;
    assert s.log[j].req == s.log[i].req;
  }

  /** With one server instance, the reply a pending call accepts is the value of
      the one execution of its handler. */
  lemma AcceptsItsResult(s: System, m: Reply) returns (i: nat)
    requires Reachable(s) && s.nonces == {s.server.nonce}
    requires m in s.replies && IsWaiting(s, m.clt, m.xid)
    ensures i < |s.log| && Key(s.log[i]) == (m.clt, m.xid) && m.body == Result(s.log[i].value)
    ensures forall j :: 0 <= j < |s.log| && Key(s.log[j]) == (m.clt, m.xid) ==> j == i
  {
    ReplyIsLogged(s, m);
    i := LoggedAt(s, m.clt, m.xid, m.body.value);
    ReachableOk(s);
    forall j | 0 <= j < |s.log| && Key(s.log[j]) == (m.clt, m.xid) ensures j == i {
      RunOnceHere(s, i, j);
    }
  }
}
