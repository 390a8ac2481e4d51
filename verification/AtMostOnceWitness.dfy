/** A call can be made and answered. */
module AtMostOnceWitness {
  import opened Prelude
  import opened ReplyWindow
  import opened AtMostOnce
  import A = AckWindow

  /** The client, the server and what is under way between two calls. */
  ghost predicate Between(s: System, clt: Nonce, next: Xid, bound: Option<Nonce>) {
    && clt in s.clients && s.clients[clt].next == next && s.clients[clt].bound == bound
    && s.server.nonce != 0 && s.server.running == map[]
    && WindowOf(s.server, clt).watermark < next
    && (forall x :: x in WindowOf(s.server, clt).replies ==> x < next)
    && A.Front(s.clients[clt].reported) < next
  }

  lemma {:induction false} RunMore(s: System, steps: seq<Step>, more: seq<Step>)
    requires Run(s, steps).Some?
    ensures Run(s, steps + more) == Run(Run(s, steps).value, more)
  {
    if more == [] {
      assert steps + more == steps;
    } else {
      RunMore(s, steps, more[..|more| - 1]);
      assert (steps + more)[..|steps + more| - 1] == steps + more[..|more| - 1];
    }
  }

  lemma RunOne(s: System, step: Step)
    requires Enabled(s, step)
    ensures Run(s, [step]) == Some(Apply(s, step))
  {
    assert [step][..0] == [];
  }

  lemma RunTwo(s: System, a: Step, b: Step)
    requires Enabled(s, a) && Enabled(Apply(s, a), b)
    ensures Run(s, [a, b]) == Some(Apply(Apply(s, a), b))
  {
    RunOne(s, a);
    RunOne(Apply(s, a), b);
    RunMore(s, [a], [b]);
    assert [a] + [b] == [a, b];
  }

  /** A new call reaches the server, which takes it up. */
  lemma Reaches(s: System, clt: Nonce, next: Xid, bind: bool) returns (s': System, steps: seq<Step>, req: Request)
    requires clt in s.clients && Between(s, clt, next, s.clients[clt].bound) && (bind <==> s.clients[clt].bound.None?)
    requires s.clients[clt].bound.Some? ==> s.clients[clt].bound.value == s.server.nonce
    ensures Run(s, steps) == Some(s') && req in s'.requests && req.clt == clt && req.xid == next && req.bind == bind
    ensures s'.server.nonce == s.server.nonce && s'.server.running == map[(clt, next) := None]
    ensures clt in s'.clients && s'.clients[clt] == s.clients[clt].(next := next + 1, calls := s.clients[clt].calls[next := Call(bind, Waiting)])
    ensures WindowOf(s'.server, clt).watermark < next && next in WindowOf(s'.server, clt).replies
    ensures forall x :: x in WindowOf(s'.server, clt).replies ==> x <= next
  {
    req := NewRequest(s, clt, bind);
    var s1 := Apply(s, StartCall(clt, bind));
    s' := Apply(s1, Receive(req));
    steps := [StartCall(clt, bind), Receive(req)];
    RunTwo(s, StartCall(clt, bind), Receive(req));
    assert !Old(s1, req);
  }

  /** It is executed and answered. */
  lemma Answers(s: System, req: Request, value: Value) returns (s': System, steps: seq<Step>)
    requires req in s.requests && s.server.running == map[(req.clt, req.xid) := None] && (req.bind ==> value == s.server.nonce)
    requires WindowOf(s.server, req.clt).watermark < req.xid && req.xid in WindowOf(s.server, req.clt).replies
    requires forall x :: x in WindowOf(s.server, req.clt).replies ==> x <= req.xid
    ensures Run(s, steps) == Some(s') && Reply(req.clt, req.xid, Result(value)) in s'.replies
    ensures s'.clients == s.clients && s'.server.nonce == s.server.nonce && s'.server.running == map[]
    ensures WindowOf(s'.server, req.clt).watermark < req.xid + 1
    ensures forall x :: x in WindowOf(s'.server, req.clt).replies ==> x < req.xid + 1
    ensures s'.log == s.log + [Exec(s.server.nonce, req, value)]
  {
    var s1 := Apply(s, Execute(req, value));
    s' := Apply(s1, Finish(req.clt, req.xid));
    steps := [Execute(req, value), Finish(req.clt, req.xid)];
    RunTwo(s, Execute(req, value), Finish(req.clt, req.xid));
  }

  /** The answer reaches the client and the call returns with it. */
  lemma ComesBack(s: System, clt: Nonce, xid: Xid, value: Value) returns (s': System, steps: seq<Step>)
    requires clt in s.clients && xid in s.clients[clt].calls && s.clients[clt].calls[xid].state.Waiting?
    requires Reply(clt, xid, Result(value)) in s.replies
    ensures Run(s, steps) == Some(s') && s'.server == s.server && s'.log == s.log && clt in s'.clients
    ensures s'.clients[clt].next == s.clients[clt].next && s'.clients[clt].reported == s.clients[clt].reported + {xid}
    ensures s'.clients[clt].bound == if s.clients[clt].calls[xid].bind then Some(value) else s.clients[clt].bound
  {
    var reply := Reply(clt, xid, Result(value));
    var s1 := Apply(s, GotReply(reply));
    s' := Apply(s1, Return(clt, xid));
    steps := [GotReply(reply), Return(clt, xid)];
    RunTwo(s, GotReply(reply), Return(clt, xid));
    assert s.clients[clt].reported + {xid} + {xid} == s.clients[clt].reported + {xid};
  }

  lemma FrontBelow(reported: set<Xid>, next: Xid)
    requires next > 0 && next !in reported
    ensures A.Front(reported) < next
  {
    assert A.AllUpTo(reported, A.Front(reported));
  }

  /** A whole call. */
  lemma WholeCall(s: System, clt: Nonce, next: Xid, bind: bool, value: Value) returns (s': System, steps: seq<Step>)
    requires next > 0 && clt in s.clients && Between(s, clt, next, s.clients[clt].bound) && (bind <==> s.clients[clt].bound.None?)
    requires s.clients[clt].bound.Some? ==> s.clients[clt].bound.value == s.server.nonce
    requires bind ==> value == s.server.nonce
    requires next !in s.clients[clt].reported && next + 1 !in s.clients[clt].reported
    ensures Run(s, steps) == Some(s') && s'.server.nonce == s.server.nonce
    ensures Between(s', clt, next + 1, if bind then Some(value) else s.clients[clt].bound)
    ensures s'.clients[clt].reported == s.clients[clt].reported + {next}
    ensures s'.log != [] && Key(s'.log[|s'.log| - 1]) == (clt, next) && s'.log[|s'.log| - 1].value == value
  {
    var s1, a, req := Reaches(s, clt, next, bind);
    var s2, b := Answers(s1, req, value);
    var s3, c := ComesBack(s2, clt, next, value);
    RunMore(s, a, b);
    RunMore(s, a + b, c);
    s', steps := s3, a + b + c;
    FrontBelow(s'.clients[clt].reported, next + 1);
  }

  /** In a run from the start a client binds, calls, and gets the value the handler
      returned. */
  lemma CallCanComplete(clt: Nonce, nonce: Nonce, value: Value) returns (s: System, steps: seq<Step>)
    requires clt != 0 && nonce != 0
    ensures Run(Start({clt}, nonce), steps) == Some(s) && clt in s.clients && s.clients[clt].bound == Some(nonce)
    ensures s.log != [] && Key(s.log[|s.log| - 1]) == (clt, 2) && s.log[|s.log| - 1].value == value
    ensures 2 in s.clients[clt].reported
  {
    var s0 := Start({clt}, nonce);
    FrontBelow({}, 1);
    var s1, a := WholeCall(s0, clt, 1, true, nonce);
    var s2, b := WholeCall(s1, clt, 2, false, value);
    RunMore(s0, a, b);
    s, steps := s2, a + b;
  }
}
