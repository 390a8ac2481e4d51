/** The write-back caches of all clients together with the lock that protects one
    block. A thread reads or writes the block only between `acquire` and
    `release`; giving the lock back flushes and erases the entry first. */
module Coherence {
  import opened Prelude
  import opened LockTypes
  import opened Blocks
  import opened ExtentCache
  import L = LockProtocol
  import LockSafety
  import LockTheorems

  datatype World = World(locks: L.System, caches: map<ClientId, Cached>, store: Block)

  datatype Step =
    | Lock(step: L.Step)
    | Get(a: ClientId, t: ThreadId)
    | Put(a: ClientId, t: ThreadId, data: Block)

  predicate Inside(w: World, a: ClientId, t: ThreadId) {
    a in w.locks.clients && L.At(w.locks.clients[a], t, L.Inside)
  }

  function EntryOf(w: World, a: ClientId): Option<Cached> {
    if a in w.caches then Some(w.caches[a]) else None
  }

  /** What a `get` at client `a` returns. */
  function ReadAt(w: World, a: ClientId): Block {
    Read(EntryOf(w, a), w.store)
  }

  predicate Enabled(w: World, step: Step) {
    match step
    case Lock(s) => L.Enabled(w.locks, s)
    case Get(a, t) => Inside(w, a, t)
    case Put(a, t, data) => Inside(w, a, t)
  }

  function Apply(w: World, step: Step): World
    requires Enabled(w, step)
  {
    match step
    case Lock(s) =>
      if s.Flush? then World(L.Apply(w.locks, s), w.caches - {s.a}, WriteBack(EntryOf(w, s.a), w.store))
      else w.(locks := L.Apply(w.locks, s))
    case Get(a, t) => w.(caches := w.caches[a := Fetch(EntryOf(w, a), w.store).value])
    case Put(a, t, data) => w.(caches := w.caches[a := Cached(data, true)])
  }

  function Start(ids: set<ClientId>, init: Block): World {
    World(L.Start(ids), map[], init)
  }

  function Run(w: World, steps: seq<Step>): Option<World> {
    if steps == [] then Some(w)
    else
      var before := Run(w, steps[..|steps| - 1]);
      var last := steps[|steps| - 1];
      if before.Some? && Enabled(before.value, last) then Some(Apply(before.value, last)) else None
  }

  /** The block last written by any client, `init` if there was no write. */
  function LastPut(steps: seq<Step>, init: Block): Block {
    if steps == [] then init
    else
      var last := steps[|steps| - 1];
      if last.Put? then last.data else LastPut(steps[..|steps| - 1], init)
  }

  predicate Flushed(m: L.Mutex) {
    (m.ByRelease? || m.ByRevoke?) && m.flushed
  }

  /** A client caches the block only while it holds the token and has not flushed. */
  ghost predicate CachedUnderLock(w: World) {
    forall a | a in w.caches ::
      a in w.locks.clients && L.ClientHolds(w.locks.clients[a]) && !Flushed(w.locks.clients[a].mutex)
  }

  ghost predicate Coherent(w: World, latest: Block) {
    && (forall a | a in w.caches :: w.caches[a].data == latest && (!w.caches[a].dirty ==> w.store == latest))
    && (w.caches == map[] ==> w.store == latest)
  }

  ghost predicate Inv(w: World, latest: Block) {
    L.Inv(w.locks) && CachedUnderLock(w) && Coherent(w, latest)
  }

  /** Two clients never cache the block at the same time. */
  lemma OneCache(w: World, latest: Block, a: ClientId, b: ClientId)
    requires Inv(w, latest) && a in w.caches
    requires b in w.locks.clients && L.ClientHolds(w.locks.clients[b])
    ensures a == b
  {
    assert L.Has(w.locks, L.AtClient(a)) && L.Has(w.locks, L.AtClient(b));
  }

  lemma NotFlushedYet(s: L.System, step: L.Step, a: ClientId)
    requires L.Enabled(s, step) && a in s.clients && !Flushed(s.clients[a].mutex)
    requires step != L.Flush(a)
    ensures a in L.Apply(s, step).clients && !Flushed(L.Apply(s, step).clients[a].mutex)
  {
    if LockTheorems.Actor(step) != Some(a) {
      LockTheorems.OthersUnchanged(s, step, a);
    } else {
      OwnStep(s, step, a);
    }
  }

  lemma OwnStep(s: L.System, step: L.Step, a: ClientId)
    requires L.Enabled(s, step) && a in s.clients && !Flushed(s.clients[a].mutex)
    requires LockTheorems.Actor(step) == Some(a) && step != L.Flush(a)
    ensures a in L.Apply(s, step).clients && !Flushed(L.Apply(s, step).clients[a].mutex)
  {
    match step
    case Enter(_, t, id) =>
    case Answer(_, t, id) =>
    case TimeOut(_, t, id) =>
    case Exit(_, t, woken) =>
    case _ =>
  }

  lemma FlushKeeps(w: World, latest: Block, a: ClientId)
    requires Inv(w, latest) && Enabled(w, Lock(L.Flush(a)))
    ensures Inv(Apply(w, Lock(L.Flush(a))), latest)
  {
    LockSafety.StepKeeps(w.locks, L.Flush(a));
    forall b | b in w.caches ensures b == a {
      OneCache(w, latest, b, a);
    }
    assert w.caches - {a} == map[];
    assert a !in w.caches ==> w.caches == map[];
  }

  lemma OtherLockStepKeeps(w: World, latest: Block, step: L.Step)
    requires Inv(w, latest) && L.Enabled(w.locks, step) && !step.Flush?
    ensures Inv(Apply(w, Lock(step)), latest)
  {
    LockSafety.StepKeeps(w.locks, step);
    forall a | a in w.caches
      ensures && a in L.Apply(w.locks, step).clients
              && L.ClientHolds(L.Apply(w.locks, step).clients[a])
              && !Flushed(L.Apply(w.locks, step).clients[a].mutex)
    {
      NotFlushedYet(w.locks, step, a);
      assert L.ClientOk(w.locks.clients[a]);
      if step.SendRelease? || step.RevokeSendRelease? {
        OneCache(w, latest, a, step.a);
        assert false;
      }
      LockTheorems.StaysAtClient(w.locks, step, a);
    }
  }

  lemma AccessKeeps(w: World, latest: Block, step: Step)
    requires Inv(w, latest) && Enabled(w, step) && !step.Lock?
    ensures Inv(Apply(w, step), if step.Put? then step.data else latest)
  {
    var c := w.locks.clients[step.a];
    assert L.ClientOk(c);
    forall b | b in w.caches ensures b == step.a {
      OneCache(w, latest, b, step.a);
    }
    assert step.a !in w.caches ==> w.caches == map[];
  }

  lemma {:induction false} RunKeeps(ids: set<ClientId>, init: Block, steps: seq<Step>)
    requires Run(Start(ids, init), steps).Some?
    ensures Inv(Run(Start(ids, init), steps).value, LastPut(steps, init))
  {
    if steps != [] {
      var before, last := steps[..|steps| - 1], steps[|steps| - 1];
      RunKeeps(ids, init, before);
      var w := Run(Start(ids, init), before).value;
      if last.Lock? && last.step.Flush? {
        FlushKeeps(w, LastPut(before, init), last.step.a);
      } else if last.Lock? {
        OtherLockStepKeeps(w, LastPut(before, init), last.step);
      } else {
        AccessKeeps(w, LastPut(before, init), last);
      }
    }
  }

  /** In every run, whoever holds the lock reads the block last written by any
      client. */
  lemma ReadsLastPut(ids: set<ClientId>, init: Block, steps: seq<Step>, a: ClientId, t: ThreadId)
    requires Run(Start(ids, init), steps).Some?
    requires Inside(Run(Start(ids, init), steps).value, a, t)
    ensures ReadAt(Run(Start(ids, init), steps).value, a) == LastPut(steps, init)
  {
    RunKeeps(ids, init, steps);
    var w := Run(Start(ids, init), steps).value;
    assert L.ClientOk(w.locks.clients[a]);
    forall b | b in w.caches ensures b == a {
      OneCache(w, LastPut(steps, init), b, a);
    }
    assert a !in w.caches ==> w.caches == map[];
  }

  /** Client a has read or written the block since it last flushed it. */
  predicate UsedSince(steps: seq<Step>, a: ClientId) {
    && steps != []
    && var last := steps[|steps| - 1];
       || (!last.Lock? && last.a == a)
       || (last != Lock(L.Flush(a)) && UsedSince(steps[..|steps| - 1], a))
  }

  /** It has written it since. */
  predicate PutSince(steps: seq<Step>, a: ClientId) {
    && steps != []
    && var last := steps[|steps| - 1];
       || (last.Put? && last.a == a)
       || (last != Lock(L.Flush(a)) && PutSince(steps[..|steps| - 1], a))
  }

  /** A client caches the block if and only if it has used it since it last flushed it,
      and the entry is dirty if and only if it has written it since. */
  lemma {:induction false} CachedWhen(ids: set<ClientId>, init: Block, steps: seq<Step>, a: ClientId)
    requires Run(Start(ids, init), steps).Some?
    ensures var w := Run(Start(ids, init), steps).value;
      (a in w.caches <==> UsedSince(steps, a)) && (a in w.caches ==> (w.caches[a].dirty <==> PutSince(steps, a)))
  {
    if steps != [] {
      CachedWhen(ids, init, steps[..|steps| - 1], a);
      PutIsUse(steps[..|steps| - 1], a);
    }
  }

  /** A flush writes to the store only what was written since the one before. */
  lemma FlushWritesWhen(ids: set<ClientId>, init: Block, steps: seq<Step>, a: ClientId)
    requires Run(Start(ids, init), steps).Some? && Enabled(Run(Start(ids, init), steps).value, Lock(L.Flush(a)))
    ensures var w := Run(Start(ids, init), steps).value; var w' := Apply(w, Lock(L.Flush(a)));
      && a !in w'.caches
      && w'.store == if PutSince(steps, a) then LastPut(steps, init) else w.store
  {
    CachedWhen(ids, init, steps, a);
    RunKeeps(ids, init, steps);
    PutIsUse(steps, a);
  }

  lemma {:induction false} PutIsUse(steps: seq<Step>, a: ClientId)
    ensures PutSince(steps, a) ==> UsedSince(steps, a)
  {
    if steps != [] {
      PutIsUse(steps[..|steps| - 1], a);
    }
  }

  /** A client that caches the block holds its lock, and when no client caches it
      the store itself has the block last written. */
  lemma CachedOnlyUnderLock(ids: set<ClientId>, init: Block, steps: seq<Step>)
    requires Run(Start(ids, init), steps).Some?
    ensures var w := Run(Start(ids, init), steps).value;
      && (forall a | a in w.caches :: a in w.locks.clients && L.ClientHolds(w.locks.clients[a]))
      && (forall a, b | a in w.caches && b in w.caches :: a == b)
      && (w.caches == map[] ==> w.store == LastPut(steps, init))
  {
    RunKeeps(ids, init, steps);
    var w := Run(Start(ids, init), steps).value;
    forall a, b | a in w.caches && b in w.caches ensures a == b {
      OneCache(w, LastPut(steps, init), a, b);
    }
  }
}

/** All locks and blocks at once: each lock guards the block of the same number,
    and a step works on one of them. */
module AllBlocks {
  import opened Prelude
  import opened LockTypes
  import opened Blocks
  import C = Coherence
  import L = LockProtocol

  type Worlds = map<LockId, C.World>

  datatype Step = Step(lid: LockId, step: C.Step)

  function Start(ids: set<ClientId>, init: map<LockId, Block>): Worlds {
    map lid | lid in init :: C.Start(ids, init[lid])
  }

  function Run(g: Worlds, steps: seq<Step>): Option<Worlds> {
    if steps == [] then Some(g)
    else
      var before := Run(g, steps[..|steps| - 1]);
      var last := steps[|steps| - 1];
      if before.Some? && last.lid in before.value && C.Enabled(before.value[last.lid], last.step)
      then Some(before.value[last.lid := C.Apply(before.value[last.lid], last.step)])
      else None
  }

  /** The steps that work on block `lid`. */
  function Project(steps: seq<Step>, lid: LockId): seq<C.Step> {
    if steps == [] then []
    else
      var last := steps[|steps| - 1];
      var before := Project(steps[..|steps| - 1], lid);
      if last.lid == lid then before + [last.step] else before
  }

  lemma {:induction false} Projects(g: Worlds, steps: seq<Step>, lid: LockId)
    requires Run(g, steps).Some? && lid in g
    ensures lid in Run(g, steps).value
    ensures C.Run(g[lid], Project(steps, lid)) == Some(Run(g, steps).value[lid])
  {
    if steps != [] {
      var before, last := steps[..|steps| - 1], steps[|steps| - 1];
      Projects(g, before, lid);
      if last.lid == lid {
        var p := Project(before, lid);
        assert (p + [last.step])[..|p|] == p;
      }
    }
  }

  /** Whatever the interleaving over all blocks, a thread that holds the lock of a
      block reads what was last written to that block by any client. */
  lemma EveryBlockCoherent(ids: set<ClientId>, init: map<LockId, Block>, steps: seq<Step>,
                           lid: LockId, a: ClientId, t: ThreadId)
    requires lid in init && Run(Start(ids, init), steps).Some?
    requires lid in Run(Start(ids, init), steps).value
    requires C.Inside(Run(Start(ids, init), steps).value[lid], a, t)
    ensures C.ReadAt(Run(Start(ids, init), steps).value[lid], a) == C.LastPut(Project(steps, lid), init[lid])
  {
    Projects(Start(ids, init), steps, lid);
    C.ReadsLastPut(ids, init[lid], Project(steps, lid), a, t);
  }

  /** And each block is cached by at most one client, a holder of its lock; a block no
      client caches is in the store as last written. */
  lemma EveryBlockCachedUnderLock(ids: set<ClientId>, init: map<LockId, Block>, steps: seq<Step>, lid: LockId)
    requires lid in init && Run(Start(ids, init), steps).Some?
    ensures lid in Run(Start(ids, init), steps).value
    ensures var w := Run(Start(ids, init), steps).value[lid];
      && (forall a | a in w.caches :: a in w.locks.clients && L.ClientHolds(w.locks.clients[a]))
      && (forall a, b | a in w.caches && b in w.caches :: a == b)
      && (w.caches == map[] ==> w.store == C.LastPut(Project(steps, lid), init[lid]))
  {
    Projects(Start(ids, init), steps, lid);
    C.CachedOnlyUnderLock(ids, init[lid], Project(steps, lid));
  }
}
