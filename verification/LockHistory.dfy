/** What the lock server's record means: its fields, told from the answers and releases
    of the run alone. */
module LockHistory {
  import opened Prelude
  import opened Histories
  import opened LockTypes
  import opened LockProtocol
  import opened LockSafety
  import T = LockTheorems

  /** The step answers an acquire call of client b. */
  ghost predicate Answers(s: System, step: Step, b: ClientId, grant: Grant)
    requires Enabled(s, step)
  {
    && step.ServeAcquire? && s.calls[step.call].client == b
    && Apply(s, step).calls[step.call].progress == Executed(grant)
  }

  /** The client that was granted the lock since the last release, if any. */
  ghost function LastGrant(s: System, steps: seq<Step>): Option<ClientId>
    requires Run(s, steps).Some?
  {
    if steps == [] then None
    else
      var r, last := Run(s, Before(steps)).value, Last(steps);
      if last.ServeRelease? then None
      else if last.ServeAcquire? && Answers(r, last, r.calls[last.call].client, Ok) then Some(r.calls[last.call].client)
      else LastGrant(s, Before(steps))
  }

  /** Client b was refused and has not been granted the lock since. */
  ghost predicate Refused(s: System, steps: seq<Step>, b: ClientId)
    requires Run(s, steps).Some?
  {
    && steps != []
    && var r, last := Run(s, Before(steps)).value, Last(steps);
       || Answers(r, last, b, TryLater)
       || (!Answers(r, last, b, Ok) && Refused(s, Before(steps), b))
  }

  /** The step refuses a client other than the one that was granted the lock. */
  ghost predicate RefusesOther(s: System, steps: seq<Step>)
    requires steps != [] && Run(s, steps).Some?
  {
    var r, last := Run(s, Before(steps)).value, Last(steps);
    exists b: ClientId :: Answers(r, last, b, TryLater) && LastGrant(s, Before(steps)) != Some(b)
  }

  /** A client other than the one that has the lock was refused since it was granted. */
  ghost predicate AskedSince(s: System, steps: seq<Step>)
    requires Run(s, steps).Some?
  {
    && steps != []
    && var r, last := Run(s, Before(steps)).value, Last(steps);
       && !last.ServeRelease?
       && !(exists b :: Answers(r, last, b, Ok))
       && (RefusesOther(s, steps) || AskedSince(s, Before(steps)))
  }

  ghost predicate Remembers(s: System, steps: seq<Step>)
    requires Run(s, steps).Some?
  {
    var server := Run(s, steps).value.server;
    && server.owner == LastGrant(s, steps) && (server.held <==> LastGrant(s, steps).Some?)
    && (server.revoked <==> AskedSince(s, steps))
    && forall b :: b in server.waiters <==> Refused(s, steps, b)
  }

  /** The server's record in every run: the lock is held by the client granted last, the
      waiters are those refused and not granted since, and the lock is revoked if and
      only if another client was refused since the grant. */
  lemma {:induction false} ServerRemembers(ids: set<ClientId>, steps: seq<Step>)
    requires Run(Start(ids), steps).Some?
    ensures Remembers(Start(ids), steps)
  {
    if steps != [] {
      var s, last := Run(Start(ids), Before(steps)).value, Last(steps);
      ServerRemembers(ids, Before(steps));
      if last.ServeAcquire? {
        AcquireRemembered(ids, steps);
      } else if last.ServeRelease? {
        assert forall b, g :: !Answers(s, last, b, g);
      } else {
        assert Apply(s, last).server == s.server;
        assert forall b, g :: !Answers(s, last, b, g);
      }
    }
  }

  lemma AcquireRemembered(ids: set<ClientId>, steps: seq<Step>)
    requires Run(Start(ids), steps).Some? && steps != [] && Last(steps).ServeAcquire?
    requires Remembers(Start(ids), Before(steps))
    ensures Remembers(Start(ids), steps)
  {
    var s, last := Run(Start(ids), Before(steps)).value, Last(steps);
    var b := s.calls[last.call].client;
    if LastGrant(Start(ids), Before(steps)).None? {
      assert Answers(s, last, b, Ok);
      assert forall c, g :: Answers(s, last, c, g) ==> c == b && g == Ok;
    } else {
      assert Answers(s, last, b, TryLater);
      assert forall c, g :: Answers(s, last, c, g) ==> c == b && g == TryLater;
    }
  }

  /** A call is granted if and only if the last grant has been given back. */
  lemma GrantedWhen(ids: set<ClientId>, steps: seq<Step>, call: CallId)
    requires Run(Start(ids), steps).Some? && Enabled(Run(Start(ids), steps).value, ServeAcquire(call))
    ensures var s := Run(Start(ids), steps).value;
      Apply(s, ServeAcquire(call)).calls[call].progress
        == Executed(if LastGrant(Start(ids), steps).None? then Ok else TryLater)
  {
    ServerRemembers(ids, steps);
  }

  /** Whoever is refused is kept as a waiter until it is granted the lock, and nobody
      else is. */
  lemma RefusedWaits(ids: set<ClientId>, steps: seq<Step>, b: ClientId)
    requires Run(Start(ids), steps).Some?
    ensures b in Run(Start(ids), steps).value.server.waiters <==> Refused(Start(ids), steps, b)
  {
    ServerRemembers(ids, steps);
  }

  /** A release tells the least two of those refused and not granted since, or all of
      them if there are fewer. */
  lemma ToldAreLeast(ids: set<ClientId>, steps: seq<Step>, call: CallId, told: seq<ClientId>)
    requires Run(Start(ids), steps).Some? && Enabled(Run(Start(ids), steps).value, ServeRelease(call, told))
    ensures forall i :: 0 <= i < |told| ==> Refused(Start(ids), steps, told[i])
    ensures forall i, j :: 0 <= i < j < |told| ==> told[i] < told[j]
    ensures |told| <= 2
    ensures forall b | Refused(Start(ids), steps, b) :: b in told || (|told| == 2 && told[0] < told[1] < b)
    ensures var s := Run(Start(ids), steps).value;
      Apply(s, ServeRelease(call, told)).retries == s.retries + multiset(told)
  {
    ServerRemembers(ids, steps);
  }

  /** While the lock is held it is revoked if and only if another client was refused
      since it was granted. */
  lemma RevokedWhen(ids: set<ClientId>, steps: seq<Step>)
    requires Run(Start(ids), steps).Some? && Run(Start(ids), steps).value.server.held
    ensures Run(Start(ids), steps).value.server.revoked <==> AskedSince(Start(ids), steps)
  {
    ServerRemembers(ids, steps);
  }

  // ----- every revoke that is due goes out -----

  /** How often a client was refused for the first time since another was granted the
      lock. */
  ghost function FirstRefusals(s: System, steps: seq<Step>): nat
    requires Run(s, steps).Some?
  {
    if steps == [] then 0
    else FirstRefusals(s, Before(steps))
         + if RefusesOther(s, steps) && !AskedSince(s, Before(steps)) then 1 else 0
  }

  function RevokesSent(steps: seq<Step>): nat {
    if steps == [] then 0 else RevokesSent(Before(steps)) + if Last(steps).SendRevoke? then 1 else 0
  }

  /** Each of them makes one revoke, sent or still to be sent. */
  lemma {:induction false} OneRevokeEach(ids: set<ClientId>, steps: seq<Step>)
    requires Run(Start(ids), steps).Some?
    ensures RevokesSent(steps) + Run(Start(ids), steps).value.revoking == FirstRefusals(Start(ids), steps)
  {
    if steps != [] {
      var s, last := Run(Start(ids), Before(steps)).value, Last(steps);
      OneRevokeEach(ids, Before(steps));
      ServerRemembers(ids, Before(steps));
      if last.ServeAcquire? {
        var b := s.calls[last.call].client;
        if s.server.held {
          assert Answers(s, last, b, TryLater);
        }
        assert RefusesOther(Start(ids), steps) <==> s.server.held && s.server.owner != Some(b);
      }
    }
  }

  /** The client is on its way to give the lock back. */
  ghost predicate GivesBack(s: System, a: ClientId) {
    || (a in s.clients && (s.clients[a].mutex.ByRelease? || s.clients[a].mutex.ByRevoke?))
    || (exists call :: Has(s, InRelease(call)) && s.calls[call].client == a)
  }

  /** A revoke for the lock's owner is still to be sent, under way, noted or obeyed. */
  ghost predicate RevokeUnderWay(s: System) {
    s.server.owner.Some? &&
    var o := s.server.owner.value;
    || s.revoking > 0 || o in s.revokes
    || (o in s.clients && s.clients[o].lock.revoked)
    || GivesBack(s, o)
  }

  ghost predicate RevokeInv(s: System) {
    && (s.server.held <==> s.server.owner.Some?)
    && (s.server.revoked ==> s.server.held && RevokeUnderWay(s))
  }

  lemma RevokeStays(s: System, step: Step)
    requires Inv(s) && Enabled(s, step) && RevokeInv(s) && T.Actor(step).Some?
    ensures RevokeInv(Apply(s, step))
  {
    var s' := Apply(s, step);
    assert s'.server == s.server;
    if s.server.held && s.server.revoked {
      var o := s.server.owner.value;
      if T.Actor(step) != Some(o) {
        T.OthersUnchanged(s, step, o);
        OtherGivesBack(s, step, o);
      } else {
        OwnStep(s, step, o);
      }
    }
  }

  lemma PendingStays(s: System, step: Step, o: ClientId, call: CallId)
    requires Inv(s) && Enabled(s, step) && T.Actor(step).Some? && Has(s, InRelease(call)) && s.calls[call].client == o
    ensures GivesBack(Apply(s, step), o)
  {
    T.StaysInRelease(s, step, call);
    var s' := Apply(s, step);
    assert Has(s', InRelease(call)) && s'.calls[call].client == o;
  }

  lemma OtherGivesBack(s: System, step: Step, o: ClientId)
    requires Inv(s) && Enabled(s, step) && T.Actor(step).Some? && T.Actor(step) != Some(o)
    ensures o in s.revokes ==> o in Apply(s, step).revokes
    ensures GivesBack(s, o) ==> GivesBack(Apply(s, step), o)
  {
    T.OthersUnchanged(s, step, o);
    if call :| Has(s, InRelease(call)) && s.calls[call].client == o {
      PendingStays(s, step, o, call);
    }
  }

  lemma OwnStep(s: System, step: Step, o: ClientId)
    requires Inv(s) && Enabled(s, step) && T.Actor(step) == Some(o) && s.server.owner == Some(o) && RevokeUnderWay(s)
    ensures RevokeUnderWay(Apply(s, step))
  {
    var s' := Apply(s, step);
    assert ClientOk(s.clients[o]);
    if call :| Has(s, InRelease(call)) && s.calls[call].client == o {
      PendingStays(s, step, o, call);
    } else if step.SendRelease? || step.RevokeSendRelease? {
      assert Has(s', InRelease(step.id)) && s'.calls[step.id].client == o;
    } else {
      OwnNote(s, step, o);
    }
  }

  lemma OwnNote(s: System, step: Step, o: ClientId)
    requires Inv(s) && Enabled(s, step) && T.Actor(step) == Some(o)
    requires !step.SendRelease? && !step.RevokeSendRelease?
    requires s.revoking > 0 || o in s.revokes || s.clients[o].lock.revoked || s.clients[o].mutex.ByRelease? || s.clients[o].mutex.ByRevoke?
    ensures var s' := Apply(s, step);
      s'.revoking > 0 || o in s'.revokes || s'.clients[o].lock.revoked || s'.clients[o].mutex.ByRelease? || s'.clients[o].mutex.ByRevoke?
  {
    match step
    case Enter(_, _, _) =>
    case Answer(_, _, _) =>
    case TimeOut(_, _, _) =>
    case Exit(_, _, _) =>
    case Revoke(_) =>
    case _ =>
  }

  lemma ServedRevoke(s: System, step: Step)
    requires Inv(s) && Enabled(s, step) && RevokeInv(s) && T.Actor(step).None?
    ensures RevokeInv(Apply(s, step))
  {
    var s' := Apply(s, step);
    if s'.server.held && s'.server.revoked && s.server.revoked {
      var o := s.server.owner.value;
      if call :| Has(s, InRelease(call)) && s.calls[call].client == o {
        assert Has(s', InRelease(call)) && s'.calls[call].client == o;
      }
    }
  }

  lemma {:induction false} RevokeAlong(ids: set<ClientId>, steps: seq<Step>)
    requires Run(Start(ids), steps).Some?
    ensures RevokeInv(Run(Start(ids), steps).value)
  {
    if steps != [] {
      var s, last := Run(Start(ids), Before(steps)).value, Last(steps);
      RevokeAlong(ids, Before(steps));
      RunKeeps(Start(ids), Before(steps));
      if T.Actor(last).None? {
        ServedRevoke(s, last);
      } else {
        RevokeStays(s, last);
      }
    }
  }

  /** No revoke is lost: while another client has been refused since the grant, the
      revoke is still to be sent, or under way to the owner, or noted there, or the owner
      is giving the lock back. */
  lemma RevokeNotLost(ids: set<ClientId>, steps: seq<Step>)
    requires Run(Start(ids), steps).Some? && AskedSince(Start(ids), steps)
    ensures RevokeUnderWay(Run(Start(ids), steps).value)
  {
    ServerRemembers(ids, steps);
    RevokeAlong(ids, steps);
  }
}
