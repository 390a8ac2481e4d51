/** Small types shared by the lock modules. */
module LockTypes {
  type ClientId = nat
  type ThreadId = nat
  type CallId = nat
  type LockId = nat

  /** Answer of the lock server to an acquire call. */
  datatype Grant = Ok | TryLater
}

/** The caching lock client. One `ClientLock` is what the client keeps for one
    lock: an entry of the status, revoked, retried and waiters maps. Each
    function below is one region of code that runs with the status mutex of that
    lock held; the class runs the same regions on the maps themselves. */
module LockClient {
  import opened LockTypes

  datatype Status = NoLock | Free | Locked | Acquiring | Releasing

  datatype ClientLock = ClientLock(status: Status, revoked: bool, retried: bool, waiters: nat)

  const INITIAL := ClientLock(NoLock, false, false, 0)

  /** How an acquiring thread leaves the mutex. */
  datatype AcquireNext = Granted | CallServer | Sleep

  /** How a releasing thread leaves the mutex. `Abort` is a failing VERIFY. */
  datatype ReleaseNext = Returned | FlushAndCall | WaitRelease | Abort

  datatype RevokeNext = Noted | FlushAndGiveBack

  function Check(l: ClientLock): (r: (ClientLock, AcquireNext)) {
    match l.status
    case NoLock => (l.(status := Acquiring), CallServer)
    case Free => (l.(status := Locked), Granted)
    case Acquiring =>
      if l.retried then (l.(retried := false), CallServer)
      else (l.(waiters := l.waiters + 1), Sleep)
    case _ => (l.(waiters := l.waiters + 1), Sleep)
  }

  /** The answer of an acquire call: only an OK that still finds the status
      Acquiring hands over the lock. */
  function Answered(l: ClientLock, ok: bool): ClientLock {
    if ok && l.status == Acquiring then l.(status := Free) else l
  }

  function Woken(l: ClientLock): ClientLock
    requires l.waiters > 0
  {
    l.(waiters := l.waiters - 1)
  }

  function Leave(l: ClientLock): (r: (ClientLock, ReleaseNext)) {
    match l.status
    case Locked =>
      if l.revoked && l.waiters == 0 then (l.(status := Releasing, revoked := false), FlushAndCall)
      else (l.(status := Free), Returned)
    case Releasing => (l.(waiters := l.waiters + 1), WaitRelease)
    case _ => (l, Abort)
  }

  function Left(l: ClientLock): ClientLock {
    l.(status := NoLock)
  }

  function Revoke(l: ClientLock): (r: (ClientLock, RevokeNext)) {
    if l.status == Free then (l.(status := NoLock), FlushAndGiveBack)
    else (l.(revoked := true), Noted)
  }

  function Retry(l: ClientLock): ClientLock {
    l.(retried := true)
  }

  /** The maps of the source, with the value a missing key reads as. */
  class Client {
    var statusMap: map<LockId, Status>
    var revokedMap: map<LockId, bool>
    var retriedMap: map<LockId, bool>
    var waitersMap: map<LockId, nat>

    ghost function View(lid: LockId): ClientLock
      reads this
    {
      ClientLock(Get(statusMap, lid, NoLock), Get(revokedMap, lid, false),
                 Get(retriedMap, lid, false), Get(waitersMap, lid, 0))
    }

    constructor ()
      ensures forall lid :: View(lid) == INITIAL
    {
      statusMap, revokedMap, retriedMap, waitersMap := map[], map[], map[], map[];
    }

    /** The loop at CHECK_AGAIN: it goes round again when a retry was noted while
        acquiring, and otherwise leaves the mutex. */
    method CheckAgain(lid: LockId) returns (next: AcquireNext)
      modifies this
      ensures (View(lid), next) == Check(old(View(lid)))
      ensures forall other :: other != lid ==> View(other) == old(View(other))
    {
      next := Sleep;
      var again := true;
      while again
        invariant forall other :: other != lid ==> View(other) == old(View(other))
        invariant again ==>
            || View(lid) == old(View(lid))
            || (old(View(lid)).status == Acquiring && old(View(lid)).retried
                && View(lid) == old(View(lid)).(status := NoLock, retried := false))
        invariant !again ==> (View(lid), next) == Check(old(View(lid)))
        decreases again, Get(retriedMap, lid, false)
      {
        again := false;
        var status := Get(statusMap, lid, NoLock);
        if status == NoLock {
          statusMap := statusMap[lid := Acquiring];
          next := CallServer;
        } else if status == Free {
          statusMap := statusMap[lid := Locked];
          next := Granted;
        } else if status == Acquiring && Get(retriedMap, lid, false) {
          statusMap := statusMap[lid := NoLock];
          retriedMap := retriedMap[lid := false];
          again := true;
        } else {
          waitersMap := waitersMap[lid := Get(waitersMap, lid, 0) + 1];
          next := Sleep;
        }
      }
    }

    /** A thread enters `acquire`: the lock's entry is created if missing. */
    method Acquire(lid: LockId) returns (next: AcquireNext)
      modifies this
      ensures (View(lid), next) == Check(old(View(lid)))
      ensures forall other :: other != lid ==> View(other) == old(View(other))
    {
      if lid !in statusMap {
        statusMap := statusMap[lid := NoLock];
      }
      next := CheckAgain(lid);
    }

    /** The acquire call came back, with an answer or with an error. */
    method AcquireAnswered(lid: LockId, ok: bool) returns (next: AcquireNext)
      modifies this
      ensures (View(lid), next) == Check(Answered(old(View(lid)), ok))
      ensures forall other :: other != lid ==> View(other) == old(View(other))
    {
      if ok {
        if Get(statusMap, lid, NoLock) == Acquiring {
          statusMap := statusMap[lid := Free];
        }
      }
      next := CheckAgain(lid);
    }

    /** A waiting thread has the mutex back. */
    method WakeUp(lid: LockId) returns (next: AcquireNext)
      requires View(lid).waiters > 0
      modifies this
      ensures (View(lid), next) == Check(Woken(old(View(lid))))
      ensures forall other :: other != lid ==> View(other) == old(View(other))
    {
      waitersMap := waitersMap[lid := Get(waitersMap, lid, 0) - 1];
      next := CheckAgain(lid);
    }

    method Release(lid: LockId) returns (next: ReleaseNext)
      modifies this
      ensures (View(lid), next) == Leave(old(View(lid)))
      ensures forall other :: other != lid ==> View(other) == old(View(other))
    {
      var status := Get(statusMap, lid, NoLock);
      if status == Locked {
        if Get(revokedMap, lid, false) && Get(waitersMap, lid, 0) == 0 {
          statusMap := statusMap[lid := Releasing];
          revokedMap := revokedMap[lid := false];
          next := FlushAndCall;
        } else {
          statusMap := statusMap[lid := Free];
          next := Returned;
        }
      } else if status == Releasing {
        waitersMap := waitersMap[lid := Get(waitersMap, lid, 0) + 1];
        next := WaitRelease;
      } else {
        next := Abort;
      }
    }

    method ReleaseAnswered(lid: LockId)
      modifies this
      ensures View(lid) == Left(old(View(lid)))
      ensures forall other :: other != lid ==> View(other) == old(View(other))
    {
      statusMap := statusMap[lid := NoLock];
    }

    method RevokeHandler(lid: LockId) returns (next: RevokeNext)
      modifies this
      ensures (View(lid), next) == Revoke(old(View(lid)))
      ensures forall other :: other != lid ==> View(other) == old(View(other))
    {
      if Get(statusMap, lid, NoLock) == Free {
        statusMap := statusMap[lid := NoLock];
        next := FlushAndGiveBack;
      } else {
        revokedMap := revokedMap[lid := true];
        next := Noted;
      }
    }

    method RetryHandler(lid: LockId)
      modifies this
      ensures View(lid) == Retry(old(View(lid)))
      ensures forall other :: other != lid ==> View(other) == old(View(other))
    {
      retriedMap := retriedMap[lid := true];
    }
  }

  function Get<V>(m: map<LockId, V>, lid: LockId, default: V): V {
    if lid in m then m[lid] else default
  }
}
