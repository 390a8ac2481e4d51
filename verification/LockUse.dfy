/** How a client uses its lock: it calls the server only when it must and gives the lock
    back only when it was told to. */
module LockUse {
  import opened Prelude
  import opened Histories
  import opened LockTypes
  import opened LockProtocol
  import opened LockSafety
  import opened LockHistory
  import T = LockTheorems

  // ----- what a client has been told -----

  /** A revoke was noted at client a and the lock has not been given back on it: the
      revoke found the client doing something else than keeping the lock for later. */
  ghost predicate NotedRevoke(s: System, steps: seq<Step>, a: ClientId)
    requires Run(s, steps).Some?
  {
    && steps != []
    && var r, last := Run(s, Before(steps)).value, Last(steps);
       || (last == Revoke(a) && !r.clients[a].lock.status.Free?)
       || (NotedRevoke(s, Before(steps), a) && !StartsGivingBack(r, last, a))
  }

  /** A thread of client a turns from its use of the lock to giving it back. */
  ghost predicate StartsGivingBack(s: System, step: Step, a: ClientId)
    requires Enabled(s, step)
  {
    step.Exit? && step.a == a && At(Apply(s, step).clients[a], step.t, Flushing)
  }

  /** A thread of client a makes a new acquire call. */
  ghost predicate Asks(s: System, step: Step, a: ClientId)
    requires Enabled(s, step)
  {
    && (step.Enter? || step.Answer? || step.TimeOut?) && step.a == a
    && At(Apply(s, step).clients[a], step.t, Calling(step.id))
  }

  /** A retry was noted at client a and no thread that found it acquiring has called the
      server since. */
  ghost predicate NotedRetry(s: System, steps: seq<Step>, a: ClientId)
    requires Run(s, steps).Some?
  {
    && steps != []
    && var r, last := Run(s, Before(steps)).value, Last(steps);
       || last == Retry(a)
       || (NotedRetry(s, Before(steps), a) && !(Asks(r, last, a) && !r.clients[a].lock.status.NoLock?))
  }

  lemma {:induction false} ClientRemembers(ids: set<ClientId>, steps: seq<Step>, a: ClientId)
    requires Run(Start(ids), steps).Some? && a in ids
    ensures a in Run(Start(ids), steps).value.clients
    ensures Run(Start(ids), steps).value.clients[a].lock.revoked <==> NotedRevoke(Start(ids), steps, a)
    ensures Run(Start(ids), steps).value.clients[a].lock.retried <==> NotedRetry(Start(ids), steps, a)
  {
    if steps != [] {
      var s, last := Run(Start(ids), Before(steps)).value, Last(steps);
      ClientRemembers(ids, Before(steps), a);
      if T.Actor(last) != Some(a) {
        T.OthersUnchanged(s, last, a);
      } else {
        RevokeNoted(s, last, a);
        RetryNoted(s, last, a);
      }
    }
  }

  lemma RevokeNoted(s: System, step: Step, a: ClientId)
    requires Enabled(s, step) && T.Actor(step) == Some(a)
    ensures a in s.clients
    ensures Apply(s, step).clients[a].lock.revoked <==>
              (step == Revoke(a) && !s.clients[a].lock.status.Free?)
              || (s.clients[a].lock.revoked && !StartsGivingBack(s, step, a))
  {
    if !step.Exit? && !step.Revoke? {
      RevokedSame(s, step, a);
    }
  }

  lemma RevokedSame(s: System, step: Step, a: ClientId)
    requires Enabled(s, step) && T.Actor(step) == Some(a) && !step.Exit? && !step.Revoke?
    ensures Apply(s, step).clients[a].lock.revoked == s.clients[a].lock.revoked
  {
    match step
    case Enter(_, _, _) =>
    case Answer(_, _, _) =>
    case TimeOut(_, _, _) =>
    case _ =>
  }

  lemma RetryNoted(s: System, step: Step, a: ClientId)
    requires Enabled(s, step) && T.Actor(step) == Some(a)
    ensures a in s.clients
    ensures Apply(s, step).clients[a].lock.retried <==>
              step == Retry(a) || (s.clients[a].lock.retried && !(Asks(s, step, a) && !s.clients[a].lock.status.NoLock?))
  {
    if step.Enter? || step.Answer? || step.TimeOut? {
      RetryUsed(s, step, a);
    } else {
      RetriedSame(s, step, a);
    }
  }

  lemma RetryUsed(s: System, step: Step, a: ClientId)
    requires Enabled(s, step) && (step.Enter? || step.Answer? || step.TimeOut?) && step.a == a
    ensures Apply(s, step).clients[a].lock.retried <==>
              s.clients[a].lock.retried && !(Asks(s, step, a) && !s.clients[a].lock.status.NoLock?)
  {
    match step
    case Enter(_, _, _) =>
    case Answer(_, _, _) =>
    case TimeOut(_, _, _) =>
  }

  lemma RetriedSame(s: System, step: Step, a: ClientId)
    requires Enabled(s, step) && T.Actor(step) == Some(a) && !step.Enter? && !step.Answer? && !step.TimeOut?
    ensures Apply(s, step).clients[a].lock.retried <==> step == Retry(a) || s.clients[a].lock.retried
  {
    match step
    case Exit(_, _, _) =>
    case Revoke(_) =>
    case _ =>
  }

  // ----- a thread that comes -----

  /** What becomes of a thread that asks for the lock: it is inside at once if the client
      keeps the lock, it calls the server if nobody here has or if a retry came, and it
      sleeps otherwise. */
  lemma EntersWhen(ids: set<ClientId>, steps: seq<Step>, a: ClientId, t: ThreadId, id: CallId)
    requires Run(Start(ids), steps).Some? && a in ids && Enabled(Run(Start(ids), steps).value, Enter(a, t, id))
    ensures var s := Run(Start(ids), steps).value; var s' := Apply(s, Enter(a, t, id));
      var status := s.clients[a].lock.status;
      && (At(s'.clients[a], t, Inside) <==> status.Free?)
      && (At(s'.clients[a], t, Calling(id)) <==> status.NoLock? || (status.Acquiring? && NotedRetry(Start(ids), steps, a)))
      && (At(s'.clients[a], t, Asleep) || At(s'.clients[a], t, Inside) || At(s'.clients[a], t, Calling(id)))
      && s'.calls == (if At(s'.clients[a], t, Calling(id)) then s.calls[id := Call(AcquireCall, a, Pending)] else s.calls)
  {
    ClientRemembers(ids, steps, a);
  }

  lemma AnswerLeadsTo(s: System, a: ClientId, t: ThreadId, id: CallId)
    requires Enabled(s, Answer(a, t, id))
    ensures var c, c' := s.clients[a], Apply(s, Answer(a, t, id)).clients[a];
      var status, ok := c.lock.status, s.calls[c.threads[t].call].progress == Executed(Ok);
      && (At(c', t, Inside) <==> status.Free? || (status.Acquiring? && ok))
      && (At(c', t, Calling(id)) <==> status.NoLock? || (status.Acquiring? && !ok && c.lock.retried))
      && (At(c', t, Asleep) || At(c', t, Inside) || At(c', t, Calling(id)))
  {
  }

  /** The same for a thread whose acquire call is answered: an OK that finds the client
      still acquiring lets it in. */
  lemma AnsweredWhen(ids: set<ClientId>, steps: seq<Step>, a: ClientId, t: ThreadId, id: CallId)
    requires Run(Start(ids), steps).Some? && a in ids && Enabled(Run(Start(ids), steps).value, Answer(a, t, id))
    ensures var s := Run(Start(ids), steps).value; var c, c' := s.clients[a], Apply(s, Answer(a, t, id)).clients[a];
      var status, ok := c.lock.status, s.calls[c.threads[t].call].progress == Executed(Ok);
      && (At(c', t, Inside) <==> status.Free? || (status.Acquiring? && ok))
      && (At(c', t, Calling(id)) <==> status.NoLock? || (status.Acquiring? && !ok && NotedRetry(Start(ids), steps, a)))
      && (At(c', t, Asleep) || At(c', t, Inside) || At(c', t, Calling(id)))
  {
    ClientRemembers(ids, steps, a);
    AnswerLeadsTo(Run(Start(ids), steps).value, a, t, id);
  }

  /** A call that timed out counts as refused. */
  lemma TimedOutWhen(ids: set<ClientId>, steps: seq<Step>, a: ClientId, t: ThreadId, id: CallId)
    requires Run(Start(ids), steps).Some? && a in ids && Enabled(Run(Start(ids), steps).value, TimeOut(a, t, id))
    ensures var s := Run(Start(ids), steps).value; var s' := Apply(s, TimeOut(a, t, id));
      var status := s.clients[a].lock.status;
      && (At(s'.clients[a], t, Inside) <==> status.Free?)
      && (At(s'.clients[a], t, Calling(id)) <==> status.NoLock? || (status.Acquiring? && NotedRetry(Start(ids), steps, a)))
      && (At(s'.clients[a], t, Asleep) || At(s'.clients[a], t, Inside) || At(s'.clients[a], t, Calling(id)))
  {
    ClientRemembers(ids, steps, a);
  }

  // ----- a thread that goes -----

  /** A thread that is done gives the lock back if and only if a revoke was noted and no
      other thread of the client waits; otherwise the client keeps the lock. */
  lemma LeavesWhen(ids: set<ClientId>, steps: seq<Step>, a: ClientId, t: ThreadId, woken: Option<ThreadId>)
    requires Run(Start(ids), steps).Some? && a in ids && Enabled(Run(Start(ids), steps).value, Exit(a, t, woken))
    ensures var s := Run(Start(ids), steps).value; var c, c' := s.clients[a], Apply(s, Exit(a, t, woken)).clients[a];
      && (c'.mutex == ByRelease(t, false) <==> NotedRevoke(Start(ids), steps, a) && Waiters(c.threads) == {})
      && (c'.mutex != ByRelease(t, false) ==> c'.lock.status.Free? && c'.mutex.Open? && t !in c'.threads)
      && ClientHolds(c') && Apply(s, Exit(a, t, woken)).calls == s.calls
  {
    ClientRemembers(ids, steps, a);
    RunKeeps(Start(ids), steps);
    var c := Run(Start(ids), steps).value.clients[a];
    assert ClientOk(c);
    assert c.lock.waiters == 0 <==> Waiters(c.threads) == {};
  }

  // ----- the lock is kept -----

  ghost predicate Keeps(c: Client) {
    ClientHolds(c) && c.mutex.Open? && !c.lock.revoked
  }

  lemma KeepsOn(s: System, step: Step, a: ClientId)
    requires Inv(s) && Enabled(s, step) && a in s.clients && Keeps(s.clients[a]) && step != Revoke(a)
    ensures a in Apply(s, step).clients && Keeps(Apply(s, step).clients[a])
    ensures !Asks(s, step, a)
  {
    if T.Actor(step) != Some(a) {
      T.OthersUnchanged(s, step, a);
    } else {
      assert ClientOk(s.clients[a]);
      KeepsHere(s, step, a);
    }
  }

  lemma KeepsHere(s: System, step: Step, a: ClientId)
    requires Enabled(s, step) && a in s.clients && Keeps(s.clients[a]) && step != Revoke(a)
    requires BusyOk(s.clients[a]) && MutexOk(s.clients[a]) && T.Actor(step) == Some(a)
    ensures a in Apply(s, step).clients && Keeps(Apply(s, step).clients[a])
    ensures !Asks(s, step, a)
  {
    match step
    case Enter(_, _, _) =>
    case Answer(_, _, _) =>
    case TimeOut(_, _, _) =>
    case Exit(_, _, _) =>
    case ReleaseOver(_, _, _) =>
    case _ =>
  }

  /** A client that has the lock with no revoke noted keeps it as long as no revoke comes,
      and makes no acquire call meanwhile; a thread that comes while the lock is not in
      use is inside at once. */
  lemma {:induction false} KeptUntilRevoked(s: System, a: ClientId, steps: seq<Step>)
    requires Reachable(s) && a in s.clients && Keeps(s.clients[a])
    requires Run(s, steps).Some? && forall i :: 0 <= i < |steps| ==> steps[i] != Revoke(a)
    ensures a in Run(s, steps).value.clients && Keeps(Run(s, steps).value.clients[a])
    ensures AsksIn(s, steps, a) == 0
    ensures forall t, id | Enabled(Run(s, steps).value, Enter(a, t, id)) && Run(s, steps).value.clients[a].lock.status.Free? ::
              var s' := Apply(Run(s, steps).value, Enter(a, t, id));
              At(s'.clients[a], t, Inside) && s'.calls == Run(s, steps).value.calls
  {
    if steps != [] {
      var before := Run(s, Before(steps)).value;
      KeptUntilRevoked(s, a, Before(steps));
      ReachableOk(s);
      RunKeeps(s, Before(steps));
      assert steps[|steps| - 1] != Revoke(a);
      KeepsOn(before, Last(steps), a);
    }
  }

  // ----- counting -----

  /** Acquire calls of client a. */
  ghost function AsksIn(s: System, steps: seq<Step>, a: ClientId): nat
    requires Run(s, steps).Some?
  {
    if steps == [] then 0
    else AsksIn(s, Before(steps), a) + if Asks(Run(s, Before(steps)).value, Last(steps), a) then 1 else 0
  }

  /** Release calls of client a. */
  function ReleasesIn(steps: seq<Step>, a: ClientId): nat {
    if steps == [] then 0
    else ReleasesIn(Before(steps), a)
         + if (Last(steps).SendRelease? || Last(steps).RevokeSendRelease?) && Last(steps).a == a then 1 else 0
  }

  function RevokesIn(steps: seq<Step>, a: ClientId): nat {
    if steps == [] then 0 else RevokesIn(Before(steps), a) + if Last(steps) == Revoke(a) then 1 else 0
  }

  function RetriesIn(steps: seq<Step>, a: ClientId): nat {
    if steps == [] then 0 else RetriesIn(Before(steps), a) + if Last(steps) == Retry(a) then 1 else 0
  }

  function One(b: bool): nat {
    if b then 1 else 0
  }

  /** A release is begun and not yet sent. */
  predicate Begun(c: Client) {
    c.mutex.ByRelease? || c.mutex.ByRevoke?
  }

  /** Releases sent, begun and owed. */
  lemma ReleaseStep(s: System, step: Step, a: ClientId)
    requires Inv(s) && Enabled(s, step) && a in s.clients
    ensures a in Apply(s, step).clients
    ensures var c, c' := s.clients[a], Apply(s, step).clients[a];
      One(Begun(c')) + One(c'.lock.revoked) + One((step.SendRelease? || step.RevokeSendRelease?) && step.a == a)
        <= One(Begun(c)) + One(c.lock.revoked) + One(step == Revoke(a))
  {
    if T.Actor(step) != Some(a) {
      T.OthersUnchanged(s, step, a);
    } else {
      assert ClientOk(s.clients[a]);
      match step
      case Enter(_, _, _) =>
      case Answer(_, _, _) =>
      case TimeOut(_, _, _) =>
      case Exit(_, _, _) =>
      case Revoke(_) =>
      case _ =>
    }
  }

  lemma {:induction false} ReleasesCounted(ids: set<ClientId>, steps: seq<Step>, a: ClientId)
    requires Run(Start(ids), steps).Some? && a in ids
    ensures a in Run(Start(ids), steps).value.clients
    ensures var c := Run(Start(ids), steps).value.clients[a];
      ReleasesIn(steps, a) + One(Begun(c)) + One(c.lock.revoked) <= RevokesIn(steps, a)
  {
    if steps != [] {
      ReleasesCounted(ids, Before(steps), a);
      RunKeeps(Start(ids), Before(steps));
      ReleaseStep(Run(Start(ids), Before(steps)).value, Last(steps), a);
    }
  }

  /** A client makes no more release calls than it received revokes. */
  lemma ReleasesOnlyOnRevoke(ids: set<ClientId>, steps: seq<Step>, a: ClientId)
    requires Run(Start(ids), steps).Some? && a in ids
    ensures ReleasesIn(steps, a) <= RevokesIn(steps, a)
  {
    ReleasesCounted(ids, steps, a);
  }

  /** Reasons to call the server that are not used up. */
  function Reasons(c: Client): nat {
    One(c.lock.status.NoLock? || c.lock.status.Releasing?) + One(c.lock.retried)
  }

  lemma AskStep(s: System, step: Step, a: ClientId)
    requires Inv(s) && Enabled(s, step) && a in s.clients
    ensures a in Apply(s, step).clients
    ensures var c, c' := s.clients[a], Apply(s, step).clients[a];
      One(Asks(s, step, a)) + Reasons(c') + One(Begun(c))
        <= Reasons(c) + One(step == Retry(a)) + One(Begun(c')) + One((step.SendRelease? || step.RevokeSendRelease?) && step.a == a)
  {
    if T.Actor(step) != Some(a) {
      T.OthersUnchanged(s, step, a);
    } else {
      assert ClientOk(s.clients[a]);
      if step.Enter? || step.Answer? || step.TimeOut? {
        CheckStep(s, step, a);
      } else {
        OtherStep(s, step, a);
      }
    }
  }

  lemma CheckStep(s: System, step: Step, a: ClientId)
    requires Enabled(s, step) && (step.Enter? || step.Answer? || step.TimeOut?) && step.a == a
    ensures Begun(Apply(s, step).clients[a]) == Begun(s.clients[a])
    ensures One(Asks(s, step, a)) + Reasons(Apply(s, step).clients[a]) <= Reasons(s.clients[a])
  {
    match step
    case Enter(_, _, _) =>
    case Answer(_, _, _) =>
    case TimeOut(_, _, _) =>
  }

  lemma OtherStep(s: System, step: Step, a: ClientId)
    requires Enabled(s, step) && T.Actor(step) == Some(a) && !step.Enter? && !step.Answer? && !step.TimeOut?
    requires BusyOk(s.clients[a]) && MutexOk(s.clients[a])
    ensures var c, c' := s.clients[a], Apply(s, step).clients[a];
      Reasons(c') + One(Begun(c))
        <= Reasons(c) + One(step == Retry(a)) + One(Begun(c')) + One(step.SendRelease? || step.RevokeSendRelease?)
  {
    match step
    case Exit(_, _, _) =>
    case Revoke(_) =>
    case _ =>
  }

  lemma {:induction false} AsksCounted(ids: set<ClientId>, steps: seq<Step>, a: ClientId)
    requires Run(Start(ids), steps).Some? && a in ids
    ensures a in Run(Start(ids), steps).value.clients
    ensures var c := Run(Start(ids), steps).value.clients[a];
      AsksIn(Start(ids), steps, a) + Reasons(c) <= 1 + RetriesIn(steps, a) + ReleasesIn(steps, a) + One(Begun(c))
  {
    if steps != [] {
      AsksCounted(ids, Before(steps), a);
      RunKeeps(Start(ids), Before(steps));
      AskStep(Run(Start(ids), Before(steps)).value, Last(steps), a);
    }
  }

  /** A client calls the server once, and once more for every retry it is told and every
      revoke it is sent. */
  lemma AsksOnlyWithReason(ids: set<ClientId>, steps: seq<Step>, a: ClientId)
    requires Run(Start(ids), steps).Some? && a in ids
    ensures AsksIn(Start(ids), steps, a) <= 1 + RetriesIn(steps, a) + RevokesIn(steps, a)
  {
    AsksCounted(ids, steps, a);
    ReleasesCounted(ids, steps, a);
  }
}
