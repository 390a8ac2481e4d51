/** What every step of the lock protocol keeps, and what holds in every run. */
module LockSafety {
  import opened Prelude
  import opened LockTypes
  import opened LockProtocol
  import C = LockClient

  // ----- one client -----

  lemma CheckedWaiters(c: Client, t: ThreadId, lock: C.ClientLock, id: CallId)
    requires t in c.threads && c.lock.waiters == |Waiters(c.threads)|
    requires c.threads[t].Entering? || c.threads[t].Calling? || c.threads[t].Awake?
    requires c.threads[t].Awake? ==> c.lock.waiters > 0
    requires lock.waiters == EnterLock(c, t).waiters
    ensures Checked(c, t, lock, id).lock.waiters == |Waiters(Checked(c, t, lock, id).threads)|
  {
    var d := Checked(c, t, lock, id);
    var before := Waiters(c.threads);
    assert c.threads[t].Awake? <==> t in before;
    if d.threads[t].Asleep? {
      assert Waiters(d.threads) == before + {t};
      assert t in before ==> before + {t} == before;
    } else {
      assert Waiters(d.threads) == before - {t};
    }
  }

  lemma CheckedKeeps(c: Client, t: ThreadId, lock: C.ClientLock, id: CallId, ok: bool)
    requires ClientOk(c) && c.mutex.Open? && t in c.threads
    requires c.threads[t].Entering? || c.threads[t].Calling? || c.threads[t].Awake?
    requires c.threads[t].Awake? ==> c.lock.waiters > 0
    requires ok ==> c.threads[t].Calling? && !ClientHolds(c)
    requires lock == C.Answered(EnterLock(c, t), ok)
    ensures ClientOk(Checked(c, t, lock, id))
  {
    var d := Checked(c, t, lock, id);
    CheckedWaiters(c, t, lock, id);
    assert BusyOk(d) && MutexOk(d);
    if d.lock.status.Acquiring? {
      assert t in d.threads && (d.threads[t].Calling? || IsWaiter(d.threads[t]));
    }
  }

  lemma WakeKeepsWaiters(threads: map<ThreadId, Pc>, woken: Option<ThreadId>)
    requires MayWake(threads, woken)
    ensures Waiters(Wake(threads, woken)) == Waiters(threads)
    ensures Waiters(threads) != {} ==> exists t :: t in Wake(threads, woken) && Wake(threads, woken)[t].Awake?
  {
    if w :| w in Waiters(threads) {
      assert w in Wake(threads, woken);
      if woken.Some? {
        assert Wake(threads, woken)[woken.value].Awake?;
      } else {
        assert Wake(threads, woken)[w].Awake?;
      }
    }
  }

  /** A thread hands the lock on and signals one sleeper. */
  lemma SignalKeeps(c: Client, t: ThreadId, woken: Option<ThreadId>, lock: C.ClientLock)
    requires ClientOk(c) && c.mutex.Open? && t in c.threads && Busy(c.threads[t])
    requires MayWake(c.threads - {t}, woken)
    requires lock.waiters == c.lock.waiters
    requires lock.status.NoLock? || (lock.status.Free? && !(lock.revoked && lock.waiters == 0))
    ensures ClientOk(c.(lock := lock, threads := Wake(c.threads - {t}, woken)))
  {
    var d := c.(lock := lock, threads := Wake(c.threads - {t}, woken));
    assert Waiters(c.threads - {t}) == Waiters(c.threads);
    WakeKeepsWaiters(c.threads - {t}, woken);
    assert BusyOk(d);
    if lock.waiters > 0 {
      var w :| w in d.threads && d.threads[w].Awake?;
      assert At(d, w, Awake);
    }
  }

  lemma ExitedKeeps(c: Client, t: ThreadId, woken: Option<ThreadId>)
    requires ClientOk(c) && c.mutex.Open? && At(c, t, Leaving)
    requires C.Leave(c.lock).1.Returned? ==> MayWake(c.threads - {t}, woken)
    ensures ClientOk(Exited(c, t, woken))
  {
    if c.lock.revoked && c.lock.waiters == 0 {
      assert Waiters(Exited(c, t, woken).threads) == Waiters(c.threads);
    } else {
      SignalKeeps(c, t, woken, C.Leave(c.lock).0);
    }
  }

  lemma BroadcastKeeps(c: Client, lock: C.ClientLock)
    requires ClientOk(c) && (c.mutex.Open? || c.mutex.ByRevokeCall?)
    requires lock.status == c.lock.status && lock.waiters == c.lock.waiters
    requires lock.status.Free? ==> lock.revoked == c.lock.revoked
    ensures ClientOk(c.(lock := lock, threads := WakeAll(c.threads), mutex := Open))
  {
    var d := c.(lock := lock, threads := WakeAll(c.threads), mutex := Open);
    assert Waiters(d.threads) == Waiters(c.threads);
    if lock.waiters > 0 {
      var w :| w in Waiters(c.threads);
      assert At(d, w, Awake);
    }
    if lock.status.Acquiring? {
      var w :| w in c.threads && (c.threads[w].Calling? || IsWaiter(c.threads[w]));
      assert w in d.threads && (d.threads[w].Calling? || d.threads[w].Awake?);
    }
  }

  lemma RevokedKeeps(c: Client)
    requires ClientOk(c) && c.mutex.Open?
    ensures ClientOk(Revoked(c))
  {
    if !c.lock.status.Free? {
      BroadcastKeeps(c, c.lock.(revoked := true));
      assert Revoked(c) == c.(lock := c.lock.(revoked := true), threads := WakeAll(c.threads), mutex := Open);
    } else if u :| At(c, u, Awake) {
      assert At(Revoked(c), u, Awake);
    }
  }

  /** Steps that move one thread between two program points that nothing counts. */
  lemma MovedKeeps(c: Client, t: ThreadId, pc: Pc)
    requires ClientOk(c)
    requires || (t !in c.threads && pc.Entering?)
             || (At(c, t, Inside) && pc.Leaving?)
             || (At(c, t, Asleep) && pc.Awake?)
    ensures ClientOk(c.(threads := c.threads[t := pc]))
  {
    MovedWakes(c, t, pc);
  }

  lemma MovedWakes(c: Client, t: ThreadId, pc: Pc)
    requires WakeUpOk(c)
    requires || (t !in c.threads && pc.Entering?)
             || (At(c, t, Inside) && pc.Leaving?)
             || (At(c, t, Asleep) && pc.Awake?)
    ensures WakeUpOk(c.(threads := c.threads[t := pc]))
  {
    var d := c.(threads := c.threads[t := pc]);
    assert Waiters(d.threads) == Waiters(c.threads);
    if u :| At(c, u, Awake) {
      assert At(d, u, Awake);
    }
    if u :| u in c.threads && (c.threads[u].Calling? || IsWaiter(c.threads[u])) {
      assert u in d.threads && (d.threads[u].Calling? || IsWaiter(d.threads[u]));
    }
    if u :| u in c.threads && (c.threads[u].Calling? || c.threads[u].Awake?) {
      assert u in d.threads && (d.threads[u].Calling? || d.threads[u].Awake?);
    }
  }

  lemma SentKeeps(c: Client, t: ThreadId, id: CallId)
    requires ClientOk(c) && c.mutex == ByRelease(t, true)
    ensures ClientOk(c.(threads := c.threads[t := GivingBack(id)], mutex := Open))
  {
    var d := c.(threads := c.threads[t := GivingBack(id)], mutex := Open);
    assert Waiters(d.threads) == Waiters(c.threads);
  }

  // ----- the whole system -----

  ghost predicate AnyToken(s: System) {
    exists k :: Has(s, k)
  }

  /** A step keeps the invariant and does not make a token from nothing. */
  ghost predicate StepOk(s: System, s': System) {
    Inv(s') && (AnyToken(s') ==> AnyToken(s))
  }

  /** Calls of `s` are in `s'` too, possibly further on. */
  ghost predicate CallsGrow(s: System, s': System) {
    forall id :: id in s.calls ==>
      id in s'.calls && s'.calls[id].kind == s.calls[id].kind && s'.calls[id].client == s.calls[id].client
  }

  /** New or changed calls are acquire calls that carry no OK. */
  ghost predicate NoTokenInCalls(s: System, s': System) {
    forall id :: id in s'.calls && (id !in s.calls || s'.calls[id] != s.calls[id]) ==>
      s'.calls[id].kind.AcquireCall? && s'.calls[id].progress != Executed(Ok)
  }

  /** Everything except the token: one client changed, calls grew. */
  lemma ClientChanged(s: System, s': System, a: ClientId, c: Client)
    requires Inv(s) && a in s.clients
    requires s'.clients == s.clients[a := c] && ClientOk(c) && CallersKnown(s', a, c)
    requires CallsGrow(s, s')
    ensures CallsOk(s') && forall b {:trigger ClientOk(s'.clients[b])} | b in s'.clients :: ClientOk(s'.clients[b])
  {
    forall b | b in s'.clients ensures ClientOk(s'.clients[b]) && CallersKnown(s', b, s'.clients[b]) {
      if b != a {
        assert ClientOk(s.clients[b]) && CallersKnown(s, b, s.clients[b]);
      }
    }
  }

  lemma ClientsSame(s: System, s': System)
    requires Inv(s) && s'.clients == s.clients && CallsGrow(s, s')
    ensures CallsOk(s') && forall b {:trigger ClientOk(s'.clients[b])} | b in s'.clients :: ClientOk(s'.clients[b])
  {
    forall b | b in s'.clients ensures ClientOk(s'.clients[b]) && CallersKnown(s', b, s'.clients[b]) {
      assert ClientOk(s.clients[b]) && CallersKnown(s, b, s.clients[b]);
    }
  }

  /** No token appears. */
  lemma NoNewToken(s: System, s': System)
    requires Inv(s) && s'.server == s.server && CallsGrow(s, s')
    requires forall k :: Has(s', k) ==> Has(s, k)
    ensures OneToken(s') && OwnerRecorded(s') && (AnyToken(s') ==> AnyToken(s))
  {
    forall k | Has(s', k) && !k.AtServer?
      ensures s'.server.owner == Some(Holder(s', k))
    {
      assert Has(s, k);
      assert Holder(s', k) == Holder(s, k);
    }
  }

  /** A token moves from one place to another. */
  lemma TokenMoved(s: System, s': System, from: Token, to: Token)
    requires Inv(s) && Has(s, from) && !Has(s', from) && Has(s', to)
    requires forall k :: Has(s', k) ==> Has(s, k) || k == to
    requires !to.AtServer? ==> s'.server.owner == Some(Holder(s', to))
    requires s'.server.held ==> s'.server.known
    ensures OneToken(s') && OwnerRecorded(s') && (AnyToken(s') ==> AnyToken(s))
  {
    assert forall k :: Has(s', k) ==> k == to;
  }

  /** Steps of one client that neither finish nor send a release and neither get
      nor give the token. */
  lemma QuietClientStep(s: System, s': System, a: ClientId, c: Client)
    requires Inv(s) && a in s.clients
    requires s'.clients == s.clients[a := c] && s'.server == s.server
    requires ClientOk(c) && CallersKnown(s', a, c)
    requires CallsGrow(s, s')
    requires NoTokenInCalls(s, s')
    requires ClientHolds(c) ==> ClientHolds(s.clients[a])
    ensures StepOk(s, s')
  {
    ClientChanged(s, s', a, c);
    NoNewToken(s, s');
  }

  /** The calls after a thread ran CHECK_AGAIN, when `r` is `s` with at most an
      answer read. */
  lemma CheckedCallsOk(s: System, r: System, s': System, a: ClientId, t: ThreadId, lock: C.ClientLock, id: CallId)
    requires Inv(s) && a in s.clients && id !in s.calls
    requires CallsGrow(s, r) && r.calls.Keys == s.calls.Keys
    requires forall k :: k in r.calls ==> r.calls[k] == s.calls[k] || r.calls[k].progress.Delivered?
    requires s'.calls == CheckedCalls(r, a, lock, id)
    ensures CallsGrow(s, s') && CallersKnown(s', a, Checked(s.clients[a], t, lock, id))
  {
    assert CallersKnown(s, a, s.clients[a]);
  }

  lemma EnterKeeps(s: System, a: ClientId, t: ThreadId, id: CallId)
    requires Inv(s) && Enabled(s, Enter(a, t, id))
    ensures StepOk(s, Apply(s, Enter(a, t, id)))
  {
    var c := s.clients[a];
    var s' := Apply(s, Enter(a, t, id));
    CheckedKeeps(c, t, EnterLock(c, t), id, false);
    CheckedCallsOk(s, s, s', a, t, EnterLock(c, t), id);
    QuietClientStep(s, s', a, Checked(c, t, EnterLock(c, t), id));
  }

  lemma TimeOutKeeps(s: System, a: ClientId, t: ThreadId, id: CallId)
    requires Inv(s) && Enabled(s, TimeOut(a, t, id))
    ensures StepOk(s, Apply(s, TimeOut(a, t, id)))
  {
    var c := s.clients[a];
    var s' := Apply(s, TimeOut(a, t, id));
    CheckedKeeps(c, t, c.lock, id, false);
    CheckedCallsOk(s, s, s', a, t, c.lock, id);
    QuietClientStep(s, s', a, Checked(c, t, c.lock, id));
  }

  ghost function AnswerLock(s: System, a: ClientId, t: ThreadId): C.ClientLock
    requires exists id :: Enabled(s, Answer(a, t, id))
  {
    C.Answered(s.clients[a].lock, s.calls[s.clients[a].threads[t].call].progress.grant.Ok?)
  }

  lemma AnswerClientOk(s: System, a: ClientId, t: ThreadId, id: CallId)
    requires Inv(s) && Enabled(s, Answer(a, t, id))
    ensures ClientOk(Checked(s.clients[a], t, AnswerLock(s, a, t), id))
  {
    assert CallersKnown(s, a, s.clients[a]);
    var call := s.clients[a].threads[t].call;
    var ok := s.calls[call].progress.grant.Ok?;
    if ok {
      assert Has(s, InAnswer(call));
      assert !Has(s, AtClient(a));
    }
    CheckedKeeps(s.clients[a], t, AnswerLock(s, a, t), id, ok);
  }

  lemma AnswerCallsOk(s: System, a: ClientId, t: ThreadId, id: CallId)
    requires Inv(s) && Enabled(s, Answer(a, t, id))
    ensures CallsGrow(s, Apply(s, Answer(a, t, id))) && NoTokenInCalls(s, Apply(s, Answer(a, t, id)))
    ensures CallersKnown(Apply(s, Answer(a, t, id)), a, Checked(s.clients[a], t, AnswerLock(s, a, t), id))
  {
    assert CallersKnown(s, a, s.clients[a]);
    var call := s.clients[a].threads[t].call;
    var r := s.(calls := s.calls[call := s.calls[call].(progress := Delivered)]);
    CheckedCallsOk(s, r, Apply(s, Answer(a, t, id)), a, t, AnswerLock(s, a, t), id);
  }

  /** An OK that finds the status still Acquiring hands the token to the client. */
  lemma GrantKeeps(s: System, a: ClientId, t: ThreadId, id: CallId)
    requires Inv(s) && Enabled(s, Answer(a, t, id))
    requires s.calls[s.clients[a].threads[t].call].progress.grant.Ok? && s.clients[a].lock.status.Acquiring?
    ensures StepOk(s, Apply(s, Answer(a, t, id)))
  {
    assert CallersKnown(s, a, s.clients[a]);
    var s' := Apply(s, Answer(a, t, id));
    var call := s.clients[a].threads[t].call;
    AnswerCallsOk(s, a, t, id);
    AnswerClientOk(s, a, t, id);
    ClientChanged(s, s', a, s'.clients[a]);
    assert s'.calls == s.calls[call := s.calls[call].(progress := Delivered)];
    TokenMoved(s, s', InAnswer(call), AtClient(a));
  }

  /** Any other answer moves no token; an OK that comes too late is dropped. */
  lemma OtherAnswerKeeps(s: System, a: ClientId, t: ThreadId, id: CallId)
    requires Inv(s) && Enabled(s, Answer(a, t, id))
    requires !(s.calls[s.clients[a].threads[t].call].progress.grant.Ok? && s.clients[a].lock.status.Acquiring?)
    ensures StepOk(s, Apply(s, Answer(a, t, id)))
  {
    AnswerCallsOk(s, a, t, id);
    AnswerClientOk(s, a, t, id);
    QuietClientStep(s, Apply(s, Answer(a, t, id)), a, Checked(s.clients[a], t, s.clients[a].lock, id));
  }

  lemma ExitKeeps(s: System, a: ClientId, t: ThreadId, woken: Option<ThreadId>)
    requires Inv(s) && Enabled(s, Exit(a, t, woken))
    ensures StepOk(s, Apply(s, Exit(a, t, woken)))
  {
    assert CallersKnown(s, a, s.clients[a]);
    ExitedKeeps(s.clients[a], t, woken);
    QuietClientStep(s, Apply(s, Exit(a, t, woken)), a, Exited(s.clients[a], t, woken));
  }

  lemma ReleaseOverKeeps(s: System, a: ClientId, t: ThreadId, woken: Option<ThreadId>)
    requires Inv(s) && Enabled(s, ReleaseOver(a, t, woken))
    ensures StepOk(s, Apply(s, ReleaseOver(a, t, woken)))
  {
    assert CallersKnown(s, a, s.clients[a]);
    var c := s.clients[a];
    SignalKeeps(c, t, woken, C.Left(c.lock));
    QuietClientStep(s, Apply(s, ReleaseOver(a, t, woken)), a,
                    c.(lock := C.Left(c.lock), threads := Wake(c.threads - {t}, woken)));
  }

  lemma RevokeKeeps(s: System, a: ClientId)
    requires Inv(s) && Enabled(s, Revoke(a))
    ensures StepOk(s, Apply(s, Revoke(a)))
  {
    assert CallersKnown(s, a, s.clients[a]);
    RevokedKeeps(s.clients[a]);
    QuietClientStep(s, Apply(s, Revoke(a)), a, Revoked(s.clients[a]));
  }

  lemma RevokeOverKeeps(s: System, a: ClientId)
    requires Inv(s) && Enabled(s, RevokeOver(a))
    ensures StepOk(s, Apply(s, RevokeOver(a)))
  {
    assert CallersKnown(s, a, s.clients[a]);
    var c := s.clients[a];
    BroadcastKeeps(c, c.lock);
    QuietClientStep(s, Apply(s, RevokeOver(a)), a, c.(threads := WakeAll(c.threads), mutex := Open));
  }

  lemma RetryKeeps(s: System, a: ClientId)
    requires Inv(s) && Enabled(s, Retry(a))
    ensures StepOk(s, Apply(s, Retry(a)))
  {
    assert CallersKnown(s, a, s.clients[a]);
    var c := s.clients[a];
    BroadcastKeeps(c, C.Retry(c.lock));
    assert c.(lock := C.Retry(c.lock), threads := WakeAll(c.threads))
        == c.(lock := C.Retry(c.lock), threads := WakeAll(c.threads), mutex := Open);
    QuietClientStep(s, Apply(s, Retry(a)), a, c.(lock := C.Retry(c.lock), threads := WakeAll(c.threads)));
  }

  lemma MoveKeeps(s: System, step: Step, a: ClientId, t: ThreadId, pc: Pc)
    requires Inv(s) && Enabled(s, step)
    requires step == CallAcquire(a, t) || step == CallRelease(a, t) || step == Spurious(a, t)
    requires pc == if step.CallAcquire? then Entering else if step.CallRelease? then Leaving else Awake
    ensures StepOk(s, Apply(s, step))
  {
    var c, s' := s.clients[a], Apply(s, step);
    assert s'.clients == s.clients[a := c.(threads := c.threads[t := pc])] && s'.server == s.server && s'.calls == s.calls;
    MovedQuietly(s, s', a, t, pc);
  }

  lemma MovedQuietly(s: System, s': System, a: ClientId, t: ThreadId, pc: Pc)
    requires Inv(s) && a in s.clients
    requires var c := s.clients[a];
      || (t !in c.threads && pc.Entering?)
      || (At(c, t, Inside) && pc.Leaving?)
      || (At(c, t, Asleep) && pc.Awake?)
    requires s'.clients == s.clients[a := s.clients[a].(threads := s.clients[a].threads[t := pc])]
    requires s'.server == s.server && s'.calls == s.calls
    ensures StepOk(s, s')
  {
    assert CallersKnown(s, a, s.clients[a]);
    MovedKeeps(s.clients[a], t, pc);
    QuietClientStep(s, s', a, s'.clients[a]);
  }

  lemma FlushKeeps(s: System, a: ClientId)
    requires Inv(s) && Enabled(s, Flush(a))
    ensures StepOk(s, Apply(s, Flush(a)))
  {
    assert ClientOk(s.clients[a]);
    assert CallersKnown(s, a, s.clients[a]);
    var s' := Apply(s, Flush(a));
    if u :| At(s.clients[a], u, Awake) {
      assert At(s'.clients[a], u, Awake);
    }
    QuietClientStep(s, s', a, s'.clients[a]);
  }

  /** The client gives the token to a release call in flight. */
  lemma ReleaseSent(s: System, s': System, a: ClientId, c: Client, id: CallId)
    requires Inv(s) && a in s.clients && id !in s.calls
    requires s'.server == s.server && s'.clients == s.clients[a := c]
    requires s'.calls == s.calls[id := Call(ReleaseCall, a, Pending)]
    requires ClientHolds(s.clients[a]) && !ClientHolds(c)
    requires ClientOk(c) && forall t :: t in c.threads && c.threads[t].Calling? ==> At(s.clients[a], t, c.threads[t])
    ensures StepOk(s, s')
  {
    assert CallersKnown(s, a, s.clients[a]);
    assert CallersKnown(s', a, c) && CallsGrow(s, s');
    ClientChanged(s, s', a, c);
    assert Has(s, AtClient(a));
    TokenMoved(s, s', AtClient(a), InRelease(id));
  }

  lemma SendKeeps(s: System, a: ClientId, t: ThreadId, id: CallId)
    requires Inv(s) && Enabled(s, SendRelease(a, t, id))
    ensures StepOk(s, Apply(s, SendRelease(a, t, id)))
  {
    var c := s.clients[a];
    SentKeeps(c, t, id);
    ReleaseSent(s, Apply(s, SendRelease(a, t, id)), a, c.(threads := c.threads[t := GivingBack(id)], mutex := Open), id);
  }

  lemma RevokeSendKeeps(s: System, a: ClientId, id: CallId)
    requires Inv(s) && Enabled(s, RevokeSendRelease(a, id))
    ensures StepOk(s, Apply(s, RevokeSendRelease(a, id)))
  {
    var c := s.clients[a].(mutex := ByRevokeCall(id));
    assert ClientOk(s.clients[a]);
    if u :| At(s.clients[a], u, Awake) {
      assert At(c, u, Awake);
    }
    ReleaseSent(s, Apply(s, RevokeSendRelease(a, id)), a, c, id);
  }

  lemma ServeAcquireKeeps(s: System, call: CallId)
    requires Inv(s) && Enabled(s, ServeAcquire(call))
    ensures StepOk(s, Apply(s, ServeAcquire(call)))
  {
    var s' := Apply(s, ServeAcquire(call));
    ClientsSame(s, s');
    if !s.server.held {
      TokenMoved(s, s', AtServer, InAnswer(call));
    } else {
      assert forall k :: Has(s', k) ==> Has(s, k) && (!k.AtServer? ==> Holder(s', k) == Holder(s, k));
    }
  }

  lemma ServeReleaseKeeps(s: System, call: CallId, told: seq<ClientId>)
    requires Inv(s) && Enabled(s, ServeRelease(call, told))
    ensures StepOk(s, Apply(s, ServeRelease(call, told)))
  {
    var s' := Apply(s, ServeRelease(call, told));
    ClientsSame(s, s');
    TokenMoved(s, s', InRelease(call), AtServer);
  }

  lemma StepKeeps(s: System, step: Step)
    requires Inv(s) && Enabled(s, step)
    ensures StepOk(s, Apply(s, step))
  {
    match step
    case CallAcquire(a, t) => MoveKeeps(s, step, a, t, Entering);
    case Enter(a, t, id) => EnterKeeps(s, a, t, id);
    case Answer(a, t, id) =>
      if s.calls[s.clients[a].threads[t].call].progress.grant.Ok? && s.clients[a].lock.status.Acquiring? {
        GrantKeeps(s, a, t, id);
      } else {
        OtherAnswerKeeps(s, a, t, id);
      }
    case TimeOut(a, t, id) => TimeOutKeeps(s, a, t, id);
    case CallRelease(a, t) => MoveKeeps(s, step, a, t, Leaving);
    case Exit(a, t, woken) => ExitKeeps(s, a, t, woken);
    case Flush(a) => FlushKeeps(s, a);
    case SendRelease(a, t, id) => SendKeeps(s, a, t, id);
    case ReleaseOver(a, t, woken) => ReleaseOverKeeps(s, a, t, woken);
    case ServeAcquire(call) => ServeAcquireKeeps(s, call);
    case ServeRelease(call, told) => ServeReleaseKeeps(s, call, told);
    case SendRevoke =>
      ClientsSame(s, Apply(s, step));
      NoNewToken(s, Apply(s, step));
    case Revoke(a) => RevokeKeeps(s, a);
    case RevokeSendRelease(a, id) => RevokeSendKeeps(s, a, id);
    case RevokeOver(a) => RevokeOverKeeps(s, a);
    case Retry(a) => RetryKeeps(s, a);
    case Spurious(a, t) => MoveKeeps(s, step, a, t, Awake);
  }

  lemma {:induction false} RunKeeps(s: System, steps: seq<Step>)
    requires Inv(s) && Run(s, steps).Some?
    ensures Inv(Run(s, steps).value)
  {
    if steps != [] {
      RunKeeps(s, steps[..|steps| - 1]);
      StepKeeps(Run(s, steps[..|steps| - 1]).value, steps[|steps| - 1]);
    }
  }

  lemma ReachableOk(s: System)
    requires Reachable(s)
    ensures Inv(s)
  {
    var ids, steps :| Run(Start(ids), steps) == Some(s);
    RunKeeps(Start(ids), steps);
  }
}
