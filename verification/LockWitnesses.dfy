/** The steps one at a time, for building runs by hand: `P` is any property that steps
    keep, such as being reachable. */
module LockRuns {
  import opened Prelude
  import opened LockTypes
  import opened LockProtocol
  import C = LockClient
  import S = LockServer

  ghost predicate Closed(P: System -> bool) {
    forall s, step :: P(s) && Enabled(s, step) ==> P(Apply(s, step))
  }

  /** Threads that nobody has to wake. */
  ghost predicate NoneAsleep(threads: map<ThreadId, Pc>) {
    forall u :: u in threads ==> !threads[u].Asleep?
  }

  function Threads(s: System, a: ClientId, threads: map<ThreadId, Pc>): System
    requires a in s.clients
  {
    With(s, a, s.clients[a].(threads := threads))
  }

  lemma CallsAcquire(P: System -> bool, s: System, a: ClientId, t: ThreadId)
    requires Closed(P) && P(s) && a in s.clients && t !in s.clients[a].threads
    ensures P(Threads(s, a, s.clients[a].threads[t := Entering]))
  {
    assert Apply(s, CallAcquire(a, t)) == Threads(s, a, s.clients[a].threads[t := Entering]);
  }

  /** Entering leads to a call of the server. */
  lemma Enters(P: System -> bool, s: System, a: ClientId, t: ThreadId, id: CallId)
    requires Closed(P) && P(s) && a in s.clients && At(s.clients[a], t, Entering) && s.clients[a].mutex.Open? && id !in s.calls
    requires C.Check(s.clients[a].lock).1.CallServer?
    ensures P(With(s, a, s.clients[a].(lock := C.Check(s.clients[a].lock).0, threads := s.clients[a].threads[t := Calling(id)]))
              .(calls := s.calls[id := Call(AcquireCall, a, Pending)]))
  {
    assert Enabled(s, Enter(a, t, id));
  }

  lemma Serves(P: System -> bool, s: System, id: CallId)
    requires Closed(P) && P(s) && id in s.calls && s.calls[id].kind.AcquireCall? && s.calls[id].progress.Pending?
    ensures var (server, grant, revoke) := S.Acquire(s.server, s.calls[id].client);
      P(s.(server := server, calls := s.calls[id := s.calls[id].(progress := Executed(grant))],
           revoking := if revoke then s.revoking + 1 else s.revoking))
  {
    assert Enabled(s, ServeAcquire(id));
  }

  /** An OK that is in time lets the thread in. */
  lemma Granted(P: System -> bool, s: System, a: ClientId, t: ThreadId, id: CallId, spare: CallId)
    requires Closed(P) && P(s) && a in s.clients && At(s.clients[a], t, Calling(id)) && s.clients[a].mutex.Open?
    requires id in s.calls && s.calls[id].progress == Executed(Ok) && spare !in s.calls && s.clients[a].lock.status.Acquiring?
    ensures P(With(s, a, s.clients[a].(lock := s.clients[a].lock.(status := C.Locked), threads := s.clients[a].threads[t := Inside]))
              .(calls := s.calls[id := s.calls[id].(progress := Delivered)]))
  {
    assert Enabled(s, Answer(a, t, spare));
  }

  lemma SendsRevoke(P: System -> bool, s: System)
    requires Closed(P) && P(s) && s.revoking > 0 && s.server.owner.Some?
    ensures P(s.(revoking := s.revoking - 1, revokes := s.revokes + multiset{s.server.owner.value}))
  {
    assert Enabled(s, SendRevoke);
  }

  lemma NotesRevoke(P: System -> bool, s: System, a: ClientId)
    requires Closed(P) && P(s) && a in s.clients && a in s.revokes && s.clients[a].mutex.Open?
    requires !s.clients[a].lock.status.Free? && NoneAsleep(s.clients[a].threads)
    ensures P(With(s, a, s.clients[a].(lock := s.clients[a].lock.(revoked := true))).(revokes := s.revokes - multiset{a}))
  {
    assert WakeAll(s.clients[a].threads) == s.clients[a].threads;
    assert Enabled(s, Revoke(a));
  }

  lemma CallsRelease(P: System -> bool, s: System, a: ClientId, t: ThreadId)
    requires Closed(P) && P(s) && a in s.clients && At(s.clients[a], t, Inside)
    ensures P(Threads(s, a, s.clients[a].threads[t := Leaving]))
  {
    assert Enabled(s, CallRelease(a, t));
  }

  /** A revoked lock nobody waits for is flushed and sent back. */
  lemma Leaves(P: System -> bool, s: System, a: ClientId, t: ThreadId)
    requires Closed(P) && P(s) && a in s.clients && At(s.clients[a], t, Leaving) && s.clients[a].mutex.Open?
    requires var l := s.clients[a].lock; l.status.Locked? && l.revoked && l.waiters == 0
    ensures P(With(s, a, Client(s.clients[a].lock.(status := C.Releasing, revoked := false),
                                s.clients[a].threads[t := Flushing], ByRelease(t, false))))
  {
    assert Enabled(s, Exit(a, t, None));
  }

  lemma Flushes(P: System -> bool, s: System, a: ClientId, t: ThreadId)
    requires Closed(P) && P(s) && a in s.clients && s.clients[a].mutex == ByRelease(t, false)
    ensures P(With(s, a, s.clients[a].(mutex := ByRelease(t, true))))
  {
    assert Enabled(s, Flush(a));
  }

  lemma SendsRelease(P: System -> bool, s: System, a: ClientId, t: ThreadId, id: CallId)
    requires Closed(P) && P(s) && a in s.clients && s.clients[a].mutex == ByRelease(t, true) && id !in s.calls
    ensures P(With(s, a, s.clients[a].(threads := s.clients[a].threads[t := GivingBack(id)], mutex := Open))
              .(calls := s.calls[id := Call(ReleaseCall, a, Pending)]))
  {
    assert Enabled(s, SendRelease(a, t, id));
  }

  lemma ServesRelease(P: System -> bool, s: System, id: CallId, told: seq<ClientId>)
    requires Closed(P) && P(s) && id in s.calls && s.calls[id].kind.ReleaseCall? && s.calls[id].progress.Pending?
    requires S.RetryList(s.server.waiters, told)
    ensures P(s.(server := S.Release(s.server), calls := s.calls[id := s.calls[id].(progress := Executed(Ok))],
                 retries := s.retries + multiset(told)))
  {
    assert Enabled(s, ServeRelease(id, told));
  }

  lemma NotesRetry(P: System -> bool, s: System, a: ClientId)
    requires Closed(P) && P(s) && a in s.clients && a in s.retries && s.clients[a].mutex.Open? && NoneAsleep(s.clients[a].threads)
    ensures P(With(s, a, s.clients[a].(lock := s.clients[a].lock.(retried := true))).(retries := s.retries - multiset{a}))
  {
    assert WakeAll(s.clients[a].threads) == s.clients[a].threads;
    assert Enabled(s, Retry(a));
  }

  lemma ReleaseIsOver(P: System -> bool, s: System, a: ClientId, t: ThreadId)
    requires Closed(P) && P(s) && a in s.clients && t in s.clients[a].threads && s.clients[a].threads[t].GivingBack?
    requires s.clients[a].mutex.Open? && NoneAsleep(s.clients[a].threads)
    ensures P(With(s, a, s.clients[a].(lock := C.Left(s.clients[a].lock), threads := s.clients[a].threads - {t})))
  {
    assert Enabled(s, ReleaseOver(a, t, None));
  }
}

/** Reachable states in which the lock is about to be lost, one for each of the ways in
    `LockTheorems.Loses` that `LockTheorems.LockCanBeLost` does not show, and one with a
    waiter and no revoke. */
module LockWitnesses {
  import opened Prelude
  import opened LockTypes
  import opened LockProtocol
  import opened LockRuns
  import C = LockClient
  import S = LockServer
  import T = LockTheorems

  const NEW := Client(C.INITIAL, map[], Open)

  /** A new client calls the server. */
  lemma Asks(P: System -> bool, s: System, x: ClientId, id: CallId) returns (s': System)
    requires Closed(P) && P(s) && x in s.clients && s.clients[x] == NEW && id !in s.calls
    ensures P(s')
    ensures s' == s.(clients := s.clients[x := Client(C.INITIAL.(status := C.Acquiring), map[1 := Calling(id)], Open)],
                     calls := s.calls[id := Call(AcquireCall, x, Pending)])
  {
    CallsAcquire(P, s, x, 1);
    s' := Threads(s, x, s.clients[x].threads[1 := Entering]);
    Enters(P, s', x, 1, id);
    s' := With(s', x, s'.clients[x].(lock := C.INITIAL.(status := C.Acquiring), threads := s'.clients[x].threads[1 := Calling(id)]))
          .(calls := s'.calls[id := Call(AcquireCall, x, Pending)]);
    assert s'.clients[x].threads == map[1 := Calling(id)];
  }

  /** A new client takes the free lock. */
  lemma Takes(P: System -> bool, s: System, x: ClientId, id: CallId, spare: CallId) returns (s': System)
    requires Closed(P) && P(s) && x in s.clients && s.clients[x] == NEW && !s.server.held
    requires id !in s.calls && spare !in s.calls && id != spare
    ensures P(s')
    ensures s' == s.(clients := s.clients[x := Client(C.INITIAL.(status := C.Locked), map[1 := Inside], Open)],
                     server := S.ServerLock(true, true, Some(x), false, s.server.waiters - {x}),
                     calls := s.calls[id := Call(AcquireCall, x, Delivered)])
  {
    s' := Asks(P, s, x, id);
    Serves(P, s', id);
    s' := s'.(server := S.Acquire(s'.server, x).0, calls := s'.calls[id := Call(AcquireCall, x, Executed(Ok))]);
    Granted(P, s', x, 1, id, spare);
    s' := With(s', x, s'.clients[x].(lock := s'.clients[x].lock.(status := C.Locked), threads := s'.clients[x].threads[1 := Inside]))
          .(calls := s'.calls[id := Call(AcquireCall, x, Delivered)]);
    assert s'.clients[x].threads == map[1 := Inside];
  }

  /** The server refuses a call for a lock another client holds and tells that client to
      give it back. */
  lemma Refuses(P: System -> bool, s: System, id: CallId) returns (s': System)
    requires Closed(P) && P(s) && id in s.calls && s.calls[id].kind.AcquireCall? && s.calls[id].progress.Pending?
    requires s.server.held && s.server.owner.Some? && s.server.owner != Some(s.calls[id].client)
    requires !s.server.revoked && s.revoking == 0
    ensures P(s')
    ensures s' == s.(server := s.server.(known := true, revoked := true, waiters := s.server.waiters + {s.calls[id].client}),
                     calls := s.calls[id := s.calls[id].(progress := Executed(TryLater))],
                     revokes := s.revokes + multiset{s.server.owner.value})
  {
    Serves(P, s, id);
    s' := s.(server := S.Acquire(s.server, s.calls[id].client).0,
             calls := s.calls[id := s.calls[id].(progress := Executed(TryLater))], revoking := 1);
    SendsRevoke(P, s');
    s' := s'.(revoking := 0, revokes := s.revokes + multiset{s.server.owner.value});
  }

  /** The holder is told to give the lock back and starts to. */
  lemma StartsBack(P: System -> bool, s: System, x: ClientId, t: ThreadId) returns (s': System)
    requires Closed(P) && P(s) && x in s.clients && x in s.revokes && NoneAsleep(s.clients[x].threads)
    requires var c := s.clients[x]; c.lock.status.Locked? && c.lock.waiters == 0 && c.mutex.Open? && At(c, t, Inside)
    ensures P(s')
    ensures var c := s.clients[x];
      s' == With(s, x, Client(c.lock.(status := C.Releasing, revoked := false), c.threads[t := Flushing], ByRelease(t, false)))
            .(revokes := s.revokes - multiset{x})
  {
    var c := s.clients[x];
    NotesRevoke(P, s, x);
    s' := With(s, x, c.(lock := c.lock.(revoked := true))).(revokes := s.revokes - multiset{x});
    CallsRelease(P, s', x, t);
    s' := Threads(s', x, c.threads[t := Leaving]);
    Leaves(P, s', x, t);
    assert c.threads[t := Leaving][t := Flushing] == c.threads[t := Flushing];
    s' := With(s', x, Client(c.lock.(status := C.Releasing, revoked := false), c.threads[t := Flushing], ByRelease(t, false)));
  }

  /** The holder is told to give the lock back and does. */
  lemma GivesBack(P: System -> bool, s: System, x: ClientId, t: ThreadId, id: CallId, told: seq<ClientId>) returns (s': System)
    requires Closed(P) && P(s) && x in s.clients && x in s.revokes && NoneAsleep(s.clients[x].threads)
    requires var c := s.clients[x]; c.lock.status.Locked? && c.lock.waiters == 0 && c.mutex.Open? && At(c, t, Inside)
    requires id !in s.calls && S.RetryList(s.server.waiters, told)
    ensures P(s')
    ensures var c := s.clients[x];
      s' == s.(clients := s.clients[x := Client(c.lock.(status := C.Releasing, revoked := false),
                                                c.threads[t := GivingBack(id)], Open)],
               server := S.Release(s.server), calls := s.calls[id := Call(ReleaseCall, x, Executed(Ok))],
               revokes := s.revokes - multiset{x}, retries := s.retries + multiset(told))
  {
    var c := s.clients[x];
    s' := StartsBack(P, s, x, t);
    Flushes(P, s', x, t);
    s' := With(s', x, s'.clients[x].(mutex := ByRelease(t, true)));
    SendsRelease(P, s', x, t, id);
    assert c.threads[t := Flushing][t := GivingBack(id)] == c.threads[t := GivingBack(id)];
    s' := With(s', x, s'.clients[x].(threads := c.threads[t := GivingBack(id)], mutex := Open))
          .(calls := s.calls[id := Call(ReleaseCall, x, Pending)]);
    ServesRelease(P, s', id, told);
    assert s'.calls[id := Call(ReleaseCall, x, Executed(Ok))] == s.calls[id := Call(ReleaseCall, x, Executed(Ok))];
    s' := s'.(server := S.Release(s.server), calls := s.calls[id := Call(ReleaseCall, x, Executed(Ok))],
              retries := s.retries + multiset(told));
  }

  /** A retry lets one more thread of an acquiring client call. */
  lemma CallsAgain(P: System -> bool, s: System, b: ClientId, t: ThreadId, id: CallId) returns (s': System)
    requires Closed(P) && P(s) && b in s.clients && b in s.retries && id !in s.calls && NoneAsleep(s.clients[b].threads)
    requires var c := s.clients[b]; c.lock.status.Acquiring? && !c.lock.retried && c.mutex.Open? && t !in c.threads
    ensures P(s')
    ensures var c := s.clients[b];
      s' == s.(clients := s.clients[b := c.(threads := c.threads[t := Calling(id)])],
               calls := s.calls[id := Call(AcquireCall, b, Pending)], retries := s.retries - multiset{b})
  {
    var c := s.clients[b];
    NotesRetry(P, s, b);
    s' := With(s, b, c.(lock := c.lock.(retried := true))).(retries := s.retries - multiset{b});
    CallsAcquire(P, s', b, t);
    s' := Threads(s', b, c.threads[t := Entering]);
    Enters(P, s', b, t, id);
    assert c.threads[t := Entering][t := Calling(id)] == c.threads[t := Calling(id)];
    s' := With(s', b, c.(threads := c.threads[t := Calling(id)])).(calls := s.calls[id := Call(AcquireCall, b, Pending)]);
  }

  /** Client 0 had the lock; client 1 was refused and will be told to retry. */
  lemma FirstRound(P: System -> bool) returns (s: System)
    requires Closed(P) && P(Start({0, 1, 2}))
    ensures P(s) && s.clients.Keys == {0, 1, 2} && s.clients[0] == NEW && s.clients[2] == NEW
    ensures s.clients[1] == Client(C.INITIAL.(status := C.Acquiring), map[1 := Calling(20)], Open)
    ensures s.calls.Keys == {10, 11, 20} && s.server == S.ServerLock(true, false, None, false, {1})
    ensures s.revoking == 0 && s.revokes == multiset{} && s.retries == multiset{1}
  {
    s := Takes(P, Start({0, 1, 2}), 0, 10, 99);
    s := Asks(P, s, 1, 20);
    s := Refuses(P, s, 20);
    s := GivesBack(P, s, 0, 1, 11, [1]);
    ReleaseIsOver(P, s, 0, 1);
    s := With(s, 0, s.clients[0].(lock := C.Left(s.clients[0].lock), threads := s.clients[0].threads - {1}));
    assert s.clients[0].threads == map[];
  }

  /** Client 2 has the lock now; client 1 calls again and client 0 is refused. */
  lemma Contended(P: System -> bool) returns (s: System)
    requires Closed(P) && P(Start({0, 1, 2}))
    ensures P(s) && s.clients.Keys == {0, 1, 2}
    ensures s.clients[0] == Client(C.INITIAL.(status := C.Acquiring), map[1 := Calling(12)], Open)
    ensures s.clients[1] == Client(C.INITIAL.(status := C.Acquiring), map[1 := Calling(20), 2 := Calling(21)], Open)
    ensures s.clients[2] == Client(C.INITIAL.(status := C.Locked), map[1 := Inside], Open)
    ensures s.calls.Keys == {10, 11, 12, 20, 21, 30} && s.calls[21] == Call(AcquireCall, 1, Pending)
    ensures s.server == S.ServerLock(true, true, Some(2), true, {0, 1})
    ensures s.revoking == 0 && s.revokes == multiset{2} && s.retries == multiset{}
  {
    s := FirstRound(P);
    s := CallsAgain(P, s, 1, 2, 21);
    assert s.clients[1].threads == map[1 := Calling(20), 2 := Calling(21)];
    s := Takes(P, s, 2, 30, 99);
    s := Asks(P, s, 0, 12);
    s := Refuses(P, s, 12);
  }

  /** Client 2 had it too. Two calls of client 1 are under way, and client 0 is to
      retry. */
  lemma SecondRound(P: System -> bool) returns (s: System)
    requires Closed(P) && P(Start({0, 1, 2}))
    ensures P(s) && s.clients.Keys == {0, 1, 2}
    ensures s.clients[0] == Client(C.INITIAL.(status := C.Acquiring), map[1 := Calling(12)], Open)
    ensures s.clients[1] == Client(C.INITIAL.(status := C.Acquiring), map[1 := Calling(20), 2 := Calling(21), 3 := Calling(22)], Open)
    ensures s.calls.Keys == {10, 11, 12, 20, 21, 22, 30, 31}
    ensures s.calls[21] == Call(AcquireCall, 1, Pending) && s.calls[22] == Call(AcquireCall, 1, Pending)
    ensures s.server == S.ServerLock(true, false, None, false, {0, 1})
    ensures s.revoking == 0 && s.revokes == multiset{} && s.retries == multiset{0}
  {
    s := Contended(P);
    s := GivesBack(P, s, 2, 1, 31, [0, 1]);
    s := CallsAgain(P, s, 1, 3, 22);
    assert s.clients[1].threads == map[1 := Calling(20), 2 := Calling(21), 3 := Calling(22)];
  }

  /** Client 1 is let in by its second call. */
  lemma ThirdRound(P: System -> bool) returns (s: System)
    requires Closed(P) && P(Start({0, 1, 2}))
    ensures P(s) && s.clients.Keys == {0, 1, 2}
    ensures s.clients[0] == Client(C.INITIAL.(status := C.Acquiring), map[1 := Calling(12)], Open)
    ensures s.clients[1] == Client(C.INITIAL.(status := C.Locked), map[1 := Calling(20), 2 := Inside, 3 := Calling(22)], Open)
    ensures s.calls.Keys == {10, 11, 12, 20, 21, 22, 30, 31} && s.calls[22] == Call(AcquireCall, 1, Pending)
    ensures s.server == S.ServerLock(true, true, Some(1), false, {0})
    ensures s.revoking == 0 && s.revokes == multiset{} && s.retries == multiset{0}
  {
    s := SecondRound(P);
    Serves(P, s, 21);
    s := s.(server := S.Acquire(s.server, 1).0, calls := s.calls[21 := Call(AcquireCall, 1, Executed(Ok))]);
    Granted(P, s, 1, 2, 21, 99);
    s := With(s, 1, s.clients[1].(lock := s.clients[1].lock.(status := C.Locked), threads := s.clients[1].threads[2 := Inside]))
         .(calls := s.calls[21 := Call(AcquireCall, 1, Delivered)]);
    assert s.clients[1].threads == map[1 := Calling(20), 2 := Inside, 3 := Calling(22)];
  }

  /** Client 1 gave the lock back, and its third call is granted: the answer will find
      the status Releasing. */
  lemma FourthRound(P: System -> bool) returns (s: System)
    requires Closed(P) && P(Start({0, 1, 2}))
    ensures P(s) && 1 in s.clients && s.clients[1].lock.status.Releasing? && s.clients[1].mutex.Open?
    ensures At(s.clients[1], 3, Calling(22)) && 99 !in s.calls
    ensures 22 in s.calls && s.calls[22] == Call(AcquireCall, 1, Executed(Ok))
  {
    s := ThirdRound(P);
    s := CallsAgain(P, s, 0, 2, 13);
    s := Refuses(P, s, 13);
    s := GivesBack(P, s, 1, 2, 23, [0]);
    Serves(P, s, 22);
    s := s.(server := S.Acquire(s.server, 1).0, calls := s.calls[22 := Call(AcquireCall, 1, Executed(Ok))]);
  }

  lemma ReachableIsClosed()
    ensures Closed((s: System) => Reachable(s))
  {
    forall s: System, step: Step | Reachable(s) && Enabled(s, step) ensures Reachable(Apply(s, step)) {
      T.ReachedBy(s, step);
    }
  }

  /** An OK can come too late: it finds the status Releasing and is dropped, and the lock
      with it. */
  lemma LateAnswer() returns (s: System, step: Step)
    ensures Reachable(s) && Enabled(s, step) && step.Answer? && T.SomeLive(s) && T.Loses(s, step)
  {
    ReachableIsClosed();
    T.StartReached({0, 1, 2});
    s := FourthRound(x => Reachable(x));
    step := Answer(1, 3, 99);
    assert T.Waited(s, 22);
    assert T.Live(s, InAnswer(22));
  }

  /** A caller can give up on a call that was granted. */
  lemma GrantedTooLate() returns (s: System, step: Step)
    ensures Reachable(s) && Enabled(s, step) && step.TimeOut? && T.SomeLive(s) && T.Loses(s, step)
  {
    ReachableIsClosed();
    T.StartReached({0});
    s := Asks(x => Reachable(x), Start({0}), 0, 10);
    Serves(x => Reachable(x), s, 10);
    s := s.(server := S.Acquire(s.server, 0).0, calls := s.calls[10 := Call(AcquireCall, 0, Executed(Ok))]);
    step := TimeOut(0, 1, 99);
    assert At(s.clients[0], 1, Calling(10));
    assert T.Live(s, InAnswer(10));
  }

  /** A waiter is not always a reason to revoke: it may have been refused before the
      present owner was granted the lock. */
  lemma WaiterWithoutRevoke() returns (s: System, b: ClientId)
    ensures Reachable(s) && s.server.held && b in s.server.waiters && s.server.owner != Some(b)
    ensures !s.server.revoked && s.revoking == 0 && s.revokes == multiset{}
  {
    ReachableIsClosed();
    T.StartReached({0, 1, 2});
    s := ThirdRound(x => Reachable(x));
    b := 0;
  }
}
