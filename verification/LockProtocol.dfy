/** The lock protocol for one lock, as a transition system: any number of clients,
    any number of threads in each, one server, and calls in flight between them.
    A step is one mutex-held region of the client or server code, or one message
    event. A call is executed at most once, at any later time, even after its
    caller gave up; an answer reaches its caller at most once. */
module LockProtocol {
  import opened Prelude
  import opened LockTypes
  import C = LockClient
  import S = LockServer

  /** Where a thread stands in `acquire` or `release`. `Inside` is between the
      return of `acquire` and the call of `release`; `Aborted` is a failed VERIFY
      and `StrayWait` the wait of a `release` that finds the lock releasing. */
  datatype Pc =
    | Entering
    | Calling(call: CallId)
    | Asleep
    | Awake
    | Inside
    | Leaving
    | Flushing
    | GivingBack(call: CallId)
    | StrayWait
    | Aborted

  /** Who keeps the status mutex across steps: a releasing thread or the revoke
      handler, each first flushing the cache and then sending the release. */
  datatype Mutex =
    | Open
    | ByRelease(thread: ThreadId, flushed: bool)
    | ByRevoke(flushed: bool)
    | ByRevokeCall(call: CallId)

  datatype Client = Client(lock: C.ClientLock, threads: map<ThreadId, Pc>, mutex: Mutex)

  datatype Kind = AcquireCall | ReleaseCall
  datatype Progress = Pending | Executed(grant: Grant) | Delivered
  datatype Call = Call(kind: Kind, client: ClientId, progress: Progress)

  /** `revoking` counts server threads that dropped the mutex and have yet to
      read the owner they send a revoke to. */
  datatype System = System(
    server: S.ServerLock,
    clients: map<ClientId, Client>,
    calls: map<CallId, Call>,
    revoking: nat,
    revokes: multiset<ClientId>,
    retries: multiset<ClientId>)

  datatype Step =
    | CallAcquire(a: ClientId, t: ThreadId)
    | Enter(a: ClientId, t: ThreadId, id: CallId)
    | Answer(a: ClientId, t: ThreadId, id: CallId)
    | TimeOut(a: ClientId, t: ThreadId, id: CallId)
    | CallRelease(a: ClientId, t: ThreadId)
    | Exit(a: ClientId, t: ThreadId, woken: Option<ThreadId>)
    | Flush(a: ClientId)
    | SendRelease(a: ClientId, t: ThreadId, id: CallId)
    | ReleaseOver(a: ClientId, t: ThreadId, woken: Option<ThreadId>)
    | ServeAcquire(call: CallId)
    | ServeRelease(call: CallId, told: seq<ClientId>)
    | SendRevoke
    | Revoke(a: ClientId)
    | RevokeSendRelease(a: ClientId, id: CallId)
    | RevokeOver(a: ClientId)
    | Retry(a: ClientId)
    | Spurious(a: ClientId, t: ThreadId)

  // ----- clients -----

  predicate At(c: Client, t: ThreadId, pc: Pc) {
    t in c.threads && c.threads[t] == pc
  }

  predicate IsWaiter(pc: Pc) {
    pc.Asleep? || pc.Awake?
  }

  function Waiters(threads: map<ThreadId, Pc>): set<ThreadId> {
    set t | t in threads && IsWaiter(threads[t])
  }

  function WakeAll(threads: map<ThreadId, Pc>): map<ThreadId, Pc> {
    map t | t in threads :: if threads[t].Asleep? then Awake else threads[t]
  }

  /** What pthread_cond_signal may pick: some sleeper, or nobody when none sleeps. */
  predicate MayWake(threads: map<ThreadId, Pc>, woken: Option<ThreadId>) {
    match woken
    case Some(w) => w in threads && threads[w].Asleep?
    case None => forall w :: w in threads ==> !threads[w].Asleep?
  }

  function Wake(threads: map<ThreadId, Pc>, woken: Option<ThreadId>): map<ThreadId, Pc> {
    match woken
    case Some(w) => threads[w := Awake]
    case None => threads
  }

  /** A thread runs CHECK_AGAIN on `lock` and leaves the mutex. */
  function Checked(c: Client, t: ThreadId, lock: C.ClientLock, id: CallId): Client {
    var (after, next) := C.Check(lock);
    var pc := match next case Granted => Inside case CallServer => Calling(id) case Sleep => Asleep;
    c.(lock := after, threads := c.threads[t := pc])
  }

  function CheckedCalls(s: System, a: ClientId, lock: C.ClientLock, id: CallId): map<CallId, Call> {
    if C.Check(lock).1.CallServer? then s.calls[id := Call(AcquireCall, a, Pending)] else s.calls
  }

  function EnterLock(c: Client, t: ThreadId): C.ClientLock
    requires t in c.threads
    requires c.threads[t].Awake? ==> c.lock.waiters > 0
  {
    if c.threads[t].Awake? then C.Woken(c.lock) else c.lock
  }

  function Exited(c: Client, t: ThreadId, woken: Option<ThreadId>): Client {
    var (after, next) := C.Leave(c.lock);
    match next
    case Returned => c.(lock := after, threads := Wake(c.threads - {t}, woken))
    case FlushAndCall => Client(after, c.threads[t := Flushing], ByRelease(t, false))
    case WaitRelease => c.(lock := after, threads := c.threads[t := StrayWait])
    case Abort => c.(threads := c.threads[t := Aborted])
  }

  function Revoked(c: Client): Client {
    var (after, next) := C.Revoke(c.lock);
    match next
    case FlushAndGiveBack => c.(lock := after, mutex := ByRevoke(false))
    case Noted => c.(lock := after, threads := WakeAll(c.threads))
  }

  // ----- steps -----

  predicate Enabled(s: System, step: Step) {
    match step
    case CallAcquire(a, t) => a in s.clients && t !in s.clients[a].threads
    case Enter(a, t, id) =>
      && a in s.clients && t in s.clients[a].threads && s.clients[a].mutex.Open? && id !in s.calls
      && (s.clients[a].threads[t].Entering? || (s.clients[a].threads[t].Awake? && s.clients[a].lock.waiters > 0))
    case Answer(a, t, id) =>
      && a in s.clients && t in s.clients[a].threads && s.clients[a].mutex.Open? && id !in s.calls
      && s.clients[a].threads[t].Calling?
      && s.clients[a].threads[t].call in s.calls
      && s.calls[s.clients[a].threads[t].call].progress.Executed?
    case TimeOut(a, t, id) =>
      && a in s.clients && t in s.clients[a].threads && s.clients[a].mutex.Open? && id !in s.calls
      && s.clients[a].threads[t].Calling?
    case CallRelease(a, t) => a in s.clients && At(s.clients[a], t, Inside)
    case Exit(a, t, woken) =>
      && a in s.clients && s.clients[a].mutex.Open? && At(s.clients[a], t, Leaving)
      && (C.Leave(s.clients[a].lock).1.Returned? ==> MayWake(s.clients[a].threads - {t}, woken))
    case Flush(a) =>
      && a in s.clients
      && (s.clients[a].mutex.ByRelease? || s.clients[a].mutex.ByRevoke?) && !s.clients[a].mutex.flushed
    case SendRelease(a, t, id) =>
      a in s.clients && s.clients[a].mutex == ByRelease(t, true) && id !in s.calls
    case ReleaseOver(a, t, woken) =>
      && a in s.clients && t in s.clients[a].threads && s.clients[a].mutex.Open?
      && s.clients[a].threads[t].GivingBack? && MayWake(s.clients[a].threads - {t}, woken)
    case ServeAcquire(call) => call in s.calls && s.calls[call].kind.AcquireCall? && s.calls[call].progress.Pending?
    case ServeRelease(call, told) =>
      && call in s.calls && s.calls[call].kind.ReleaseCall? && s.calls[call].progress.Pending?
      && S.RetryList(s.server.waiters, told)
    case SendRevoke => s.revoking > 0
    case Revoke(a) => a in s.clients && a in s.revokes && s.clients[a].mutex.Open?
    case RevokeSendRelease(a, id) =>
      a in s.clients && s.clients[a].mutex == ByRevoke(true) && id !in s.calls
    case RevokeOver(a) => a in s.clients && s.clients[a].mutex.ByRevokeCall?
    case Retry(a) => a in s.clients && a in s.retries && s.clients[a].mutex.Open?
    case Spurious(a, t) => a in s.clients && At(s.clients[a], t, Asleep)
  }

  function With(s: System, a: ClientId, c: Client): System {
    s.(clients := s.clients[a := c])
  }

  function Apply(s: System, step: Step): System
    requires Enabled(s, step)
  {
    match step
    case CallAcquire(a, t) =>
      With(s, a, s.clients[a].(threads := s.clients[a].threads[t := Entering]))
    case Enter(a, t, id) =>
      var lock := EnterLock(s.clients[a], t);
      With(s, a, Checked(s.clients[a], t, lock, id)).(calls := CheckedCalls(s, a, lock, id))
    case Answer(a, t, id) =>
      var call := s.clients[a].threads[t].call;
      var lock := C.Answered(s.clients[a].lock, s.calls[call].progress.grant.Ok?);
      var read := s.(calls := s.calls[call := s.calls[call].(progress := Delivered)]);
      With(read, a, Checked(s.clients[a], t, lock, id)).(calls := CheckedCalls(read, a, lock, id))
    case TimeOut(a, t, id) =>
      var lock := C.Answered(s.clients[a].lock, false);
      With(s, a, Checked(s.clients[a], t, lock, id)).(calls := CheckedCalls(s, a, lock, id))
    case CallRelease(a, t) =>
      With(s, a, s.clients[a].(threads := s.clients[a].threads[t := Leaving]))
    case Exit(a, t, woken) => With(s, a, Exited(s.clients[a], t, woken))
    case Flush(a) =>
      var m := s.clients[a].mutex;
      With(s, a, s.clients[a].(mutex := if m.ByRelease? then ByRelease(m.thread, true) else ByRevoke(true)))
    case SendRelease(a, t, id) =>
      With(s, a, s.clients[a].(threads := s.clients[a].threads[t := GivingBack(id)], mutex := Open))
        .(calls := s.calls[id := Call(ReleaseCall, a, Pending)])
    case ReleaseOver(a, t, woken) =>
      With(s, a, s.clients[a].(lock := C.Left(s.clients[a].lock),
                               threads := Wake(s.clients[a].threads - {t}, woken)))
    case ServeAcquire(call) =>
      var (server, grant, revoke) := S.Acquire(s.server, s.calls[call].client);
      s.(server := server, calls := s.calls[call := s.calls[call].(progress := Executed(grant))],
         revoking := if revoke then s.revoking + 1 else s.revoking)
    case ServeRelease(call, told) =>
      s.(server := S.Release(s.server), calls := s.calls[call := s.calls[call].(progress := Executed(Ok))],
         retries := s.retries + multiset(told))
    case SendRevoke =>
      s.(revoking := s.revoking - 1,
         revokes := if s.server.owner.Some? then s.revokes + multiset{s.server.owner.value} else s.revokes)
    case Revoke(a) =>
      With(s, a, Revoked(s.clients[a])).(revokes := s.revokes - multiset{a})
    case RevokeSendRelease(a, id) =>
      With(s, a, s.clients[a].(mutex := ByRevokeCall(id)))
        .(calls := s.calls[id := Call(ReleaseCall, a, Pending)])
    case RevokeOver(a) =>
      With(s, a, s.clients[a].(threads := WakeAll(s.clients[a].threads), mutex := Open))
    case Retry(a) =>
      With(s, a, s.clients[a].(lock := C.Retry(s.clients[a].lock), threads := WakeAll(s.clients[a].threads)))
        .(retries := s.retries - multiset{a})
    case Spurious(a, t) =>
      With(s, a, s.clients[a].(threads := s.clients[a].threads[t := Awake]))
  }

  function Start(ids: set<ClientId>): System {
    System(S.UNKNOWN, map a | a in ids :: Client(C.INITIAL, map[], Open), map[], 0, multiset{}, multiset{})
  }

  /** The state after a sequence of steps, if every one of them was possible. */
  function Run(s: System, steps: seq<Step>): (end: Option<System>) {
    if steps == [] then Some(s)
    else
      var before := Run(s, steps[..|steps| - 1]);
      var last := steps[|steps| - 1];
      if before.Some? && Enabled(before.value, last) then Some(Apply(before.value, last)) else None
  }

  ghost predicate Reachable(s: System) {
    exists ids, steps :: Run(Start(ids), steps) == Some(s)
  }

  // ----- the token -----

  /** The places the right to the lock can be. */
  datatype Token = AtServer | InAnswer(call: CallId) | AtClient(a: ClientId) | InRelease(call: CallId)

  predicate ClientHolds(c: Client) {
    c.lock.status.Free? || c.lock.status.Locked? || c.mutex.ByRelease? || c.mutex.ByRevoke?
  }

  predicate Has(s: System, token: Token) {
    match token
    case AtServer => !s.server.held
    case InAnswer(call) => call in s.calls && s.calls[call].kind.AcquireCall? && s.calls[call].progress == Executed(Ok)
    case AtClient(a) => a in s.clients && ClientHolds(s.clients[a])
    case InRelease(call) => call in s.calls && s.calls[call].kind.ReleaseCall? && s.calls[call].progress.Pending?
  }

  function Holder(s: System, token: Token): (owner: ClientId)
    requires Has(s, token) && !token.AtServer?
  {
    match token
    case InAnswer(call) => s.calls[call].client
    case AtClient(a) => a
    case InRelease(call) => s.calls[call].client
  }

  ghost predicate OneToken(s: System) {
    forall t, u :: Has(s, t) && Has(s, u) ==> t == u
  }

  ghost predicate OwnerRecorded(s: System) {
    && (forall t | Has(s, t) && !t.AtServer? :: s.server.owner == Some(Holder(s, t)))
    && (s.server.held ==> s.server.known)
  }

  // ----- inside one client -----

  /** The thread that holds the lock or is giving it back. */
  predicate Busy(pc: Pc) {
    pc.Inside? || pc.Leaving? || pc.Flushing? || pc.GivingBack?
  }

  ghost predicate BusyOk(c: Client) {
    && (forall t | t in c.threads :: !c.threads[t].Aborted? && !c.threads[t].StrayWait?)
    && (forall t | t in c.threads && (c.threads[t].Inside? || c.threads[t].Leaving?) :: c.lock.status.Locked?)
    && (forall t | t in c.threads && (c.threads[t].Flushing? || c.threads[t].GivingBack?) :: c.lock.status.Releasing?)
    && (forall t, u | t in c.threads && u in c.threads && Busy(c.threads[t]) && Busy(c.threads[u]) :: t == u)
  }

  ghost predicate MutexOk(c: Client) {
    && (c.mutex.ByRelease? ==> c.lock.status.Releasing? && At(c, c.mutex.thread, Flushing))
    && (c.mutex.ByRevoke? || c.mutex.ByRevokeCall? ==> c.lock.status.NoLock?)
    && (forall t | t in c.threads && c.threads[t].Flushing? :: c.mutex.ByRelease?)
  }

  /** Nobody uses the lock here. */
  predicate Unused(c: Client) {
    c.lock.status.Free? || c.lock.status.NoLock?
  }

  /** A counted waiter exists for every unit of the waiters count, and nobody is
      left asleep with nothing to wake it: see the three parts. */
  ghost predicate WakeUpOk(c: Client) {
    && c.lock.waiters == |Waiters(c.threads)|
    // a revoke noted while the lock is free has a waiter to act on it
    && (c.lock.status.Free? && c.lock.revoked ==> c.lock.waiters > 0)
    // a lock nobody uses wakes somebody that wants it
    && (Unused(c) && c.lock.waiters > 0 ==> exists t :: At(c, t, Awake))
    // somebody is getting the lock, and a noted retry is acted on
    && (c.lock.status.Acquiring? ==> exists t :: t in c.threads && (c.threads[t].Calling? || IsWaiter(c.threads[t])))
    && (c.lock.status.Acquiring? && c.lock.retried ==>
          exists t :: t in c.threads && (c.threads[t].Calling? || c.threads[t].Awake?))
  }

  ghost predicate ClientOk(c: Client) {
    BusyOk(c) && MutexOk(c) && WakeUpOk(c)
  }

  /** A thread in an acquire call waits for an acquire call of its own client. */
  ghost predicate CallersKnown(s: System, a: ClientId, c: Client) {
    && (forall t | t in c.threads && c.threads[t].Calling? ::
          var id := c.threads[t].call;
          id in s.calls && s.calls[id].kind.AcquireCall? && s.calls[id].client == a)
    && (forall t, u | t in c.threads && u in c.threads && c.threads[t].Calling? && c.threads[t] == c.threads[u] :: t == u)
  }

  ghost predicate CallsOk(s: System) {
    forall a {:trigger CallersKnown(s, a, s.clients[a])} | a in s.clients :: CallersKnown(s, a, s.clients[a])
  }

  ghost predicate Inv(s: System) {
    && CallsOk(s)
    && OneToken(s)
    && OwnerRecorded(s)
    && (forall a {:trigger ClientOk(s.clients[a])} | a in s.clients :: ClientOk(s.clients[a]))
  }
}
