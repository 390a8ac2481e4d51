/** What the lock protocol guarantees in every reachable state. */
module LockTheorems {
  import opened Prelude
  import opened LockTypes
  import opened LockProtocol
  import opened LockSafety
  import C = LockClient
  import S = LockServer

  /** At most one thread of one client is between the return of `acquire` and the
      call of `release`. */
  lemma MutualExclusion(s: System, a: ClientId, t: ThreadId, b: ClientId, u: ThreadId)
    requires Reachable(s) && a in s.clients && b in s.clients
    requires At(s.clients[a], t, Inside) && At(s.clients[b], u, Inside)
    ensures a == b && t == u
  {
    ReachableOk(s);
    assert ClientOk(s.clients[a]) && ClientOk(s.clients[b]);
    assert Has(s, AtClient(a)) && Has(s, AtClient(b));
  }

  /** The right to the lock is in at most one place: free at the server, in an OK
      answer, at a client, or in a release call not yet executed. */
  lemma AtMostOneToken(s: System, k: Token, l: Token)
    requires Reachable(s) && Has(s, k) && Has(s, l)
    ensures k == l
  {
    ReachableOk(s);
  }

  /** The server does not look at who releases. It need not: every release it
      executes comes from the client it recorded, for a lock it knows and holds. */
  lemma ReleaseComesFromOwner(s: System, call: CallId, told: seq<ClientId>)
    requires Reachable(s) && Enabled(s, ServeRelease(call, told))
    ensures s.server.known && s.server.held && s.server.owner == Some(s.calls[call].client)
  {
    ReachableOk(s);
    assert Has(s, InRelease(call));
    assert !Has(s, AtServer);
  }

  lemma HolderIsRecorded(s: System, a: ClientId)
    requires Reachable(s) && a in s.clients
    requires s.clients[a].lock.status.Free? || s.clients[a].lock.status.Locked?
    ensures s.server.held && s.server.owner == Some(a)
  {
    ReachableOk(s);
    assert Has(s, AtClient(a));
    assert !Has(s, AtServer);
  }

  /** A thread that releases what it acquired reaches neither a failing VERIFY nor
      the wait for a release in progress. */
  lemma ReleaseNeverFails(s: System, a: ClientId, t: ThreadId)
    requires Reachable(s) && a in s.clients && t in s.clients[a].threads
    ensures !s.clients[a].threads[t].Aborted? && !s.clients[a].threads[t].StrayWait?
    ensures s.clients[a].threads[t].Leaving? ==>
              C.Leave(s.clients[a].lock).1.Returned? || C.Leave(s.clients[a].lock).1.FlushAndCall?
  {
    ReachableOk(s);
    assert ClientOk(s.clients[a]);
  }

  /** No revoke is stranded and no wake-up lost, whoever has the mutex. */
  lemma NoLostWakeUp(s: System, a: ClientId)
    requires Reachable(s) && a in s.clients
    ensures var c := s.clients[a];
      && (c.lock.status.Free? && c.lock.revoked ==> c.lock.waiters > 0)
      && ((c.lock.status.Free? || c.lock.status.NoLock?) && c.lock.waiters > 0 ==> exists t :: At(c, t, Awake))
      && (c.lock.status.Acquiring? && c.lock.retried ==>
            exists t :: t in c.threads && (c.threads[t].Calling? || c.threads[t].Awake?))
  {
    ReachableOk(s);
    assert ClientOk(s.clients[a]);
  }

  // ----- when the lock is lost -----

  ghost predicate Waited(s: System, call: CallId) {
    exists a, t :: a in s.clients && At(s.clients[a], t, Calling(call))
  }

  /** A token somebody can still use: an OK answer counts only if its caller waits. */
  ghost predicate Live(s: System, k: Token) {
    Has(s, k) && (k.InAnswer? ==> Waited(s, k.call))
  }

  ghost predicate SomeLive(s: System) {
    exists k :: Live(s, k)
  }

  /** The three ways the code loses the lock: an OK arrives when the status is no
      longer Acquiring, a caller gives up on a call that was granted, or the server
      grants a call whose caller gave up. */
  ghost predicate Loses(s: System, step: Step)
    requires Enabled(s, step)
  {
    match step
    case Answer(a, t, id) =>
      s.calls[s.clients[a].threads[t].call].progress.grant.Ok? && !s.clients[a].lock.status.Acquiring?
    case TimeOut(a, t, id) =>
      Has(s, InAnswer(s.clients[a].threads[t].call))
    case ServeAcquire(call) => !s.server.held && !Waited(s, call)
    case _ => false
  }

  /** The thread a step takes out of an acquire call. */
  predicate Resumes(step: Step, a: ClientId, t: ThreadId) {
    (step.Answer? || step.TimeOut?) && step.a == a && step.t == t
  }

  /** The client a step runs at. */
  function Actor(step: Step): Option<ClientId> {
    if step.ServeAcquire? || step.ServeRelease? || step.SendRevoke? then None else Some(step.a)
  }

  lemma OthersUnchanged(s: System, step: Step, a: ClientId)
    requires Enabled(s, step) && Actor(step) != Some(a)
    ensures a in Apply(s, step).clients <==> a in s.clients
    ensures a in s.clients ==> Apply(s, step).clients[a] == s.clients[a]
  {
  }

  lemma CallerStays(s: System, step: Step, a: ClientId, t: ThreadId)
    requires Inv(s) && Enabled(s, step) && a in s.clients && t in s.clients[a].threads
    requires s.clients[a].threads[t].Calling? && !Resumes(step, a, t)
    ensures At(Apply(s, step).clients[a], t, s.clients[a].threads[t])
  {
    if Actor(step) != Some(a) {
      OthersUnchanged(s, step, a);
    } else {
      assert ClientOk(s.clients[a]);
    }
  }

  lemma CallerWas(s: System, step: Step, a: ClientId, t: ThreadId, call: CallId)
    requires Enabled(s, step) && call in s.calls
    requires a in Apply(s, step).clients && At(Apply(s, step).clients[a], t, Calling(call))
    ensures a in s.clients && At(s.clients[a], t, Calling(call)) && !Resumes(step, a, t)
  {
    if Actor(step) != Some(a) {
      OthersUnchanged(s, step, a);
    } else {
      CallerWasHere(s, step, a, t, call);
    }
  }

  lemma CallerWasHere(s: System, step: Step, a: ClientId, t: ThreadId, call: CallId)
    requires Enabled(s, step) && call in s.calls && Actor(step) == Some(a)
    requires a in Apply(s, step).clients && At(Apply(s, step).clients[a], t, Calling(call))
    ensures a in s.clients && At(s.clients[a], t, Calling(call)) && !Resumes(step, a, t)
  {
    match step
    case Enter(_, _, _) =>
    case Answer(_, _, _) =>
    case TimeOut(_, _, _) =>
    case Exit(_, _, _) =>
    case ReleaseOver(_, _, _) =>
    case _ =>
  }

  /** Where the token is after a step that does not lose it. */
  ghost function After(s: System, step: Step, k: Token): Token
    requires Enabled(s, step)
  {
    match step
    case Answer(a, t, id) => if k == InAnswer(s.clients[a].threads[t].call) then AtClient(a) else k
    case SendRelease(a, t, id) => if k == AtClient(a) then InRelease(id) else k
    case RevokeSendRelease(a, id) => if k == AtClient(a) then InRelease(id) else k
    case ServeAcquire(call) => if k.AtServer? then InAnswer(call) else k
    case ServeRelease(call, told) => AtServer
    case _ => k
  }

  /** A client keeps the token until it sends a release. */
  lemma StaysAtClient(s: System, step: Step, a: ClientId)
    requires Enabled(s, step) && a in s.clients && ClientHolds(s.clients[a])
    requires BusyOk(s.clients[a]) && MutexOk(s.clients[a])
    requires !step.SendRelease? && !step.RevokeSendRelease?
    ensures a in Apply(s, step).clients && ClientHolds(Apply(s, step).clients[a])
  {
    if Actor(step) != Some(a) {
      OthersUnchanged(s, step, a);
    } else {
      match step
      case Enter(_, _, _) =>
      case Answer(_, _, _) =>
      case TimeOut(_, _, _) =>
      case Exit(_, _, _) =>
      case ReleaseOver(_, _, _) =>
      case _ =>
    }
  }

  lemma StaysInAnswer(s: System, step: Step, call: CallId)
    requires Enabled(s, step) && Has(s, InAnswer(call))
    requires step.Answer? ==> s.clients[step.a].threads[step.t] != Calling(call)
    ensures Has(Apply(s, step), InAnswer(call))
  {
  }

  lemma StaysInRelease(s: System, step: Step, call: CallId)
    requires Inv(s) && Enabled(s, step) && Has(s, InRelease(call)) && !step.ServeRelease?
    ensures Has(Apply(s, step), InRelease(call))
  {
    if step.Answer? {
      assert CallersKnown(s, step.a, s.clients[step.a]);
    }
  }

  lemma GrantedStays(s: System, a: ClientId, t: ThreadId, id: CallId)
    requires Enabled(s, Answer(a, t, id)) && !Loses(s, Answer(a, t, id))
    requires s.calls[s.clients[a].threads[t].call].progress.grant.Ok?
    ensures Has(Apply(s, Answer(a, t, id)), AtClient(a))
  {
  }

  lemma SentTokenStays(s: System, step: Step, k: Token)
    requires Enabled(s, step) && (step.SendRelease? || step.RevokeSendRelease?)
    requires k == AtClient(step.a)
    ensures Has(Apply(s, step), After(s, step, k))
  {
  }

  lemma StaysAtServer(s: System, step: Step)
    requires Enabled(s, step) && Actor(step).Some?
    ensures Apply(s, step).server == s.server
  {
  }

  lemma TokenStays(s: System, step: Step, k: Token)
    requires Inv(s) && Enabled(s, step) && Has(s, k) && !Loses(s, step)
    ensures Has(Apply(s, step), After(s, step, k))
  {
    if Actor(step).None? {
      ServedTokenStays(s, step, k);
    } else if step.SendRelease? || step.RevokeSendRelease? {
      assert Has(s, AtClient(step.a));
      SentTokenStays(s, step, k);
    } else {
      ClientTokenStays(s, step, k);
    }
  }

  lemma ClientTokenStays(s: System, step: Step, k: Token)
    requires Inv(s) && Enabled(s, step) && Has(s, k) && !Loses(s, step)
    requires Actor(step).Some? && !step.SendRelease? && !step.RevokeSendRelease?
    ensures Has(Apply(s, step), After(s, step, k))
  {
    if k.InAnswer? && step.Answer? && s.clients[step.a].threads[step.t] == Calling(k.call) {
      GrantedStays(s, step.a, step.t, step.id);
    } else {
      assert After(s, step, k) == k;
      if k.AtServer? {
        StaysAtServer(s, step);
      } else if k.InAnswer? {
        StaysInAnswer(s, step, k.call);
      } else if k.AtClient? {
        assert ClientOk(s.clients[k.a]);
        StaysAtClient(s, step, k.a);
      } else {
        StaysInRelease(s, step, k.call);
      }
    }
  }

  lemma ServedTokenStays(s: System, step: Step, k: Token)
    requires Inv(s) && Enabled(s, step) && Has(s, k) && Actor(step).None?
    ensures Has(Apply(s, step), After(s, step, k))
  {
  }

  lemma KeptAlive(s: System, step: Step)
    requires Inv(s) && Enabled(s, step) && SomeLive(s) && !Loses(s, step)
    ensures SomeLive(Apply(s, step))
  {
    var k :| Live(s, k);
    TokenStays(s, step, k);
    var l := After(s, step, k);
    if l.InAnswer? {
      var a, t :| a in s.clients && At(s.clients[a], t, Calling(l.call));
      CallerStays(s, step, a, t);
      assert Waited(Apply(s, step), l.call);
    }
    assert Live(Apply(s, step), l);
  }

  /** The only token is an OK nobody waits for. */
  lemma OrphanIsDead(s: System, call: CallId)
    requires OneToken(s) && Has(s, InAnswer(call)) && !Waited(s, call)
    ensures !SomeLive(s)
  {
  }

  lemma DroppedAnswer(s: System, a: ClientId, t: ThreadId, id: CallId)
    requires Inv(s) && Enabled(s, Answer(a, t, id)) && Loses(s, Answer(a, t, id))
    ensures !SomeLive(Apply(s, Answer(a, t, id)))
  {
    var s' := Apply(s, Answer(a, t, id));
    var call := s.clients[a].threads[t].call;
    assert CallersKnown(s, a, s.clients[a]);
    assert Has(s, InAnswer(call));
    assert !Has(s, AtClient(a));
    AnswerCallsOk(s, a, t, id);
    assert forall k :: Has(s', k) ==> Has(s, k);
    assert !Has(s', InAnswer(call));
  }

  lemma NobodyWaits(s: System, step: Step, call: CallId)
    requires Inv(s) && Enabled(s, step) && call in s.calls
    requires forall a, t :: a in s.clients && At(s.clients[a], t, Calling(call)) ==> Resumes(step, a, t)
    ensures !Waited(Apply(s, step), call)
  {
    if Waited(Apply(s, step), call) {
      var b, u :| b in Apply(s, step).clients && At(Apply(s, step).clients[b], u, Calling(call));
      CallerWas(s, step, b, u, call);
      assert false;
    }
  }

  lemma LosingStep(s: System, step: Step)
    requires Inv(s) && Enabled(s, step) && Loses(s, step)
    ensures !SomeLive(Apply(s, step))
  {
    StepKeeps(s, step);
    match step
    case Answer(a, t, id) => DroppedAnswer(s, a, t, id);
    case TimeOut(a, t, id) =>
      var call := s.clients[a].threads[t].call;
      forall b, u | b in s.clients && At(s.clients[b], u, Calling(call))
        ensures Resumes(step, b, u)
      {
        assert CallersKnown(s, a, s.clients[a]) && CallersKnown(s, b, s.clients[b]);
      }
      NobodyWaits(s, step, call);
      StaysInAnswer(s, step, call);
      OrphanIsDead(Apply(s, step), call);
    case ServeAcquire(call) =>
      NobodyWaits(s, step, call);
      OrphanIsDead(Apply(s, step), call);
  }

  /** The exact condition: from any reachable state in which somebody can still
      use the lock, a step keeps it usable if and only if it is not one of the
      three in `Loses`. */
  lemma TokenConserved(s: System, step: Step)
    requires Reachable(s) && Enabled(s, step) && SomeLive(s)
    ensures SomeLive(Apply(s, step)) <==> !Loses(s, step)
  {
    ReachableOk(s);
    if Loses(s, step) {
      LosingStep(s, step);
    } else {
      KeptAlive(s, step);
    }
  }

  lemma DeadStays(s: System, step: Step)
    requires Inv(s) && Enabled(s, step) && !SomeLive(s)
    ensures !SomeLive(Apply(s, step))
  {
    StepKeeps(s, step);
    if k :| Has(s, k) {
      assert !Live(s, k);
      assert k.InAnswer? && !Waited(s, k.call);
      assert step.Answer? ==> At(s.clients[step.a], step.t, s.clients[step.a].threads[step.t]);
      NobodyWaits(s, step, k.call);
      StaysInAnswer(s, step, k.call);
      OrphanIsDead(Apply(s, step), k.call);
    }
  }

  lemma {:induction false} DeadAlong(s: System, steps: seq<Step>)
    requires Inv(s) && !SomeLive(s) && Run(s, steps).Some?
    ensures !SomeLive(Run(s, steps).value)
  {
    if steps != [] {
      DeadAlong(s, steps[..|steps| - 1]);
      RunKeeps(s, steps[..|steps| - 1]);
      DeadStays(Run(s, steps[..|steps| - 1]).value, steps[|steps| - 1]);
    }
  }

  /** Once nobody can use the lock, no thread of any client ever gets it again. */
  lemma LostForever(s: System, steps: seq<Step>, a: ClientId, t: ThreadId)
    requires Reachable(s) && !SomeLive(s) && Run(s, steps).Some?
    requires a in Run(s, steps).value.clients
    ensures !At(Run(s, steps).value.clients[a], t, Inside)
  {
    var end := Run(s, steps).value;
    ReachableOk(s);
    RunKeeps(s, steps);
    DeadAlong(s, steps);
    if At(end.clients[a], t, Inside) {
      assert ClientOk(end.clients[a]);
      assert Live(end, AtClient(a));
    }
  }

  /** No step of the run was one of the three in `Loses`. */
  ghost predicate NeverLoses(s: System, steps: seq<Step>)
    requires Run(s, steps).Some?
  {
    steps == [] ||
    (var before := steps[..|steps| - 1];
     NeverLoses(s, before) && !Loses(Run(s, before).value, steps[|steps| - 1]))
  }

  /** At the end of a run the lock is usable if and only if no step of it lost it. */
  lemma {:induction false} UsableWhen(ids: set<ClientId>, steps: seq<Step>)
    requires Run(Start(ids), steps).Some?
    ensures SomeLive(Run(Start(ids), steps).value) <==> NeverLoses(Start(ids), steps)
  {
    if steps == [] {
      assert Live(Start(ids), AtServer);
    } else {
      var before, last := steps[..|steps| - 1], steps[|steps| - 1];
      UsableWhen(ids, before);
      var s := Run(Start(ids), before).value;
      assert Reachable(s);
      if SomeLive(s) {
        TokenConserved(s, last);
      } else {
        ReachableOk(s);
        DeadStays(s, last);
      }
    }
  }

  lemma ReachedBy(s: System, step: Step)
    requires Reachable(s) && Enabled(s, step)
    ensures Reachable(Apply(s, step))
  {
    var ids, steps :| Run(Start(ids), steps) == Some(s);
    assert (steps + [step])[..|steps|] == steps;
    assert Run(Start(ids), steps + [step]) == Some(Apply(s, step));
  }

  lemma StartReached(ids: set<ClientId>)
    ensures Reachable(Start(ids))
  {
    assert Run(Start(ids), []) == Some(Start(ids));
  }

  function OneClient(status: C.Status, waiters: nat, pc: Pc, calls: map<CallId, Call>): System {
    System(S.UNKNOWN, map[0 := Client(C.ClientLock(status, false, false, waiters), map[1 := pc], Open)],
           calls, 0, multiset{}, multiset{})
  }

  /** The only caller gives up. */
  lemma CallerGivesUp(id: CallId)
    ensures Reachable(OneClient(C.Acquiring, 1, Asleep, map[id := Call(AcquireCall, 0, Pending)]))
  {
    var calls := map[id := Call(AcquireCall, 0, Pending)];
    var s0, s1 := Start({0}), OneClient(C.NoLock, 0, Entering, map[]);
    var s2, s3 := OneClient(C.Acquiring, 0, Calling(id), calls), OneClient(C.Acquiring, 1, Asleep, calls);
    StartReached({0});
    assert s1.clients == s0.clients[0 := Client(C.INITIAL, map[1 := Entering], Open)];
    ReachedBy(s0, CallAcquire(0, 1));
    assert s1.clients[0].threads[1 := Calling(id)] == s2.clients[0].threads;
    assert s1.clients[0 := s2.clients[0]] == s2.clients;
    ReachedBy(s1, Enter(0, 1, id));
    assert s2.clients[0].threads[1 := Asleep] == s3.clients[0].threads;
    assert s2.clients[0 := s3.clients[0]] == s3.clients;
    ReachedBy(s2, TimeOut(0, 1, id + 1));
  }

  /** It does happen: the only caller gives up, and then its call is granted. */
  lemma LockCanBeLost() returns (s: System)
    ensures Reachable(s) && !SomeLive(s)
  {
    var before := OneClient(C.Acquiring, 1, Asleep, map[10 := Call(AcquireCall, 0, Pending)]);
    CallerGivesUp(10);
    s := Apply(before, ServeAcquire(10));
    ReachedBy(before, ServeAcquire(10));
    ReachableOk(s);
    assert Has(s, InAnswer(10)) && !Waited(s, 10);
    OrphanIsDead(s, 10);
  }
}
