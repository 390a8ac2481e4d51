/** The caching lock server. `ServerLock` is what it keeps for one lock;
    `Acquire` and `Release` are the regions run with that lock's mutex held. */
module LockServer {
  import opened Prelude
  import opened LockTypes

  datatype ServerLock = ServerLock(known: bool, held: bool, owner: Option<ClientId>,
                                   revoked: bool, waiters: set<ClientId>)

  const UNKNOWN := ServerLock(false, false, None, false, {})

  /** At most this many waiters are told to retry by one release. */
  const RETRY_LIMIT := 2

  /** New state, answer, and whether this thread goes on to send a revoke after
      dropping the mutex. */
  function Acquire(s: ServerLock, id: ClientId): (r: (ServerLock, Grant, bool)) {
    if !s.held then
      (ServerLock(true, true, Some(id), false, s.waiters - {id}), Ok, false)
    else if s.owner == Some(id) then
      (s.(known := true, waiters := s.waiters + {id}), TryLater, false)
    else
      (s.(known := true, waiters := s.waiters + {id}, revoked := true), TryLater, !s.revoked)
  }

  /** The releasing client is not looked at. */
  function Release(s: ServerLock): ServerLock {
    ServerLock(s.known, false, None, false, s.waiters)
  }

  /** `told` is what the retry loop walks over: waiters in ascending order, none
      skipped, all of them or the first RETRY_LIMIT. */
  predicate RetryList(waiters: set<ClientId>, told: seq<ClientId>) {
    && (forall i :: 0 <= i < |told| ==> told[i] in waiters)
    && (forall i, j :: 0 <= i < j < |told| ==> told[i] < told[j])
    && (forall i, w :: 0 <= i < |told| && w in waiters && w !in told ==> told[i] < w)
    && |told| <= RETRY_LIMIT
    && (|told| < RETRY_LIMIT ==> forall w :: w in waiters ==> w in told)
  }

  class Server {
    var lockMap: map<LockId, bool>
    var ownerMap: map<LockId, Option<ClientId>>
    var revokedMap: map<LockId, bool>
    var waitersMap: map<LockId, set<ClientId>>

    ghost predicate Valid()
      reads this
    {
      lockMap.Keys == ownerMap.Keys == revokedMap.Keys == waitersMap.Keys
    }

    ghost function View(lid: LockId): ServerLock
      requires Valid()
      reads this
    {
      if lid in lockMap then
        ServerLock(true, lockMap[lid], ownerMap[lid], revokedMap[lid], waitersMap[lid])
      else UNKNOWN
    }

    constructor ()
      ensures Valid()
      ensures forall lid :: View(lid) == UNKNOWN
    {
      lockMap, ownerMap, revokedMap, waitersMap := map[], map[], map[], map[];
    }

    /** Makes the entries of a lock not seen before. */
    method Know(lid: LockId)
      requires Valid()
      modifies this
      ensures Valid() && lid in lockMap && View(lid) == old(View(lid)).(known := true)
      ensures forall other :: other != lid ==> View(other) == old(View(other))
    {
      if lid !in lockMap {
        lockMap := lockMap[lid := false];
        revokedMap := revokedMap[lid := false];
        ownerMap := ownerMap[lid := None];
        waitersMap := waitersMap[lid := {}];
      }
    }

    method AcquireLock(lid: LockId, id: ClientId) returns (ret: Grant, revoke: bool)
      requires Valid()
      modifies this
      ensures Valid()
      ensures (View(lid), ret, revoke) == Acquire(old(View(lid)), id)
      ensures forall other :: other != lid ==> View(other) == old(View(other))
    {
      Know(lid);
      revoke := false;
      if !lockMap[lid] {
        lockMap := lockMap[lid := true];
        ownerMap := ownerMap[lid := Some(id)];
        waitersMap := waitersMap[lid := waitersMap[lid] - {id}];
        revokedMap := revokedMap[lid := false];
        return Ok, false;
      }
      waitersMap := waitersMap[lid := waitersMap[lid] + {id}];
      ret := TryLater;
      if ownerMap[lid] != Some(id) && !revokedMap[lid] {
        revokedMap := revokedMap[lid := true];
        revoke := true;
      }
    }

    /** A release of a lock the server has never seen fails its VERIFY, so the
        caller owes `lid in lockMap`. Returns the clients told to retry. */
    method ReleaseLock(lid: LockId, id: ClientId) returns (told: seq<ClientId>)
      requires Valid() && lid in lockMap
      modifies this
      ensures Valid()
      ensures View(lid) == Release(old(View(lid)))
      ensures RetryList(old(View(lid)).waiters, told)
      ensures forall other :: other != lid ==> View(other) == old(View(other))
    {
      lockMap := lockMap[lid := false];
      ownerMap := ownerMap[lid := None];
      revokedMap := revokedMap[lid := false];
      told := FirstWaiters(waitersMap[lid]);
    }
  }

  /** The retry loop of `release`, over the waiters in ascending order. */
  method FirstWaiters(waiters: set<ClientId>) returns (told: seq<ClientId>)
    ensures RetryList(waiters, told)
  {
    told := [];
    var left := waiters;
    var cnt := RETRY_LIMIT;
    while left != {} && cnt != 0
      invariant 0 <= cnt <= RETRY_LIMIT && |told| == RETRY_LIMIT - cnt
      invariant left <= waiters
      invariant forall w :: w in waiters <==> w in left || w in told
      invariant forall i, j :: 0 <= i < j < |told| ==> told[i] < told[j]
      invariant forall i, w :: 0 <= i < |told| && w in left ==> told[i] < w
      decreases left
    {
      var least := Least(left);
      told := told + [least];
      left := left - {least};
      cnt := cnt - 1;
    }
  }

  method Least(s: set<ClientId>) returns (m: ClientId)
    requires s != {}
    ensures m in s && forall x :: x in s ==> m <= x
  {
    m :| m in s;
    var left := s - {m};
    while left != {}
      invariant m in s && left <= s
      invariant forall x :: x in s && x !in left ==> m <= x
      decreases left
    {
      var x :| x in left;
      if x < m {
        m := x;
      }
      left := left - {x};
    }
  }
}
