/** The API server pollers: one goroutine per cluster, kept unique by a map under a mutex,
    that wake the cluster's reconciler through an unbuffered channel and a work queue. */
module Poller {
  type UID = string
  type Gid = nat

  // ---------------------------------------------------------------------- one check

  /** The four ways a check of the API server can end, and success. */
  datatype Probe = GetFailed | Deleting | NoClient | ListFailed | Listed

  /** IsAPIServerOnline: the answer, and whether it comes with an error. */
  function IsAPIServerOnline(p: Probe): (bool, bool) {
    match p
    case GetFailed => (false, true)
    case Deleting => (false, true)
    case NoClient => (false, false)
    case ListFailed => (false, false)
    case Listed => (true, false)
  }

  /** Polling goes on until an answer of true or an error. */
  predicate EndsPolling(p: Probe) {
    IsAPIServerOnline(p).0 || IsAPIServerOnline(p).1
  }

  /** A Cluster that cannot be read or is being deleted ends the polling with an error, and an API server
      that lists its nodes with success. Without a client or a list it goes on. */
  lemma PollingGoesOn(p: Probe)
    ensures !EndsPolling(p) <==> p.NoClient? || p.ListFailed?
    ensures IsAPIServerOnline(p).0 <==> p.Listed?
  {
  }

  // ------------------------------------------------------------------------- the state

  /** A goroutine: polling, about to send, about to lock, holding the lock before and after the delete. */
  datatype GPhase = Polling | Sending | Sent | Locked | Deleted

  datatype Goroutine = Goroutine(uid: UID, phase: GPhase)

  /** A cluster reconcile: before the lock, holding it before the lookup, between insert and spawn, before
      the unlock; about to check the API server; about to finish. */
  datatype RPhase = WantsLock | HasLock | Inserted | Unlocking | Checking | Finishing(notReady: bool)

  /** `eligible`: neither initialised nor being deleted, so that it asks for a poller. */
  datatype Reconcile = Reconcile(eligible: bool, phase: RPhase)

  datatype Holder = Nobody | Reconciler(uid: UID) | Poller(gid: Gid)

  /** `inbox` holds the events between the channel and the work queue, `dirty` the queued keys: a key
      added while its reconcile runs stays dirty. `seen` remembers which API servers were seen online,
      `spawned` and `sent` count. */
  datatype State = State(
    holder: Holder,
    triggers: set<UID>,
    goroutines: map<Gid, Goroutine>,
    nextGid: Gid,
    reconciles: map<UID, Reconcile>,
    inbox: multiset<UID>,
    dirty: set<UID>,
    seen: set<UID>,
    spawned: multiset<UID>,
    sent: multiset<UID>)

  const INITIAL := State(Nobody, {}, map[], 0, map[], multiset{}, {}, {}, multiset{}, multiset{})

  datatype Action =
    | Enqueue(uid: UID)                    // a watch event
    | Deliver(uid: UID)                    // the channel source hands an event to the queue
    | Start(uid: UID, eligible: bool, returnsEarly: bool)
    | Lock(uid: UID)
    | Lookup(uid: UID)
    | Spawn(uid: UID)
    | Unlock(uid: UID)
    | Check(uid: UID, probe: Probe)
    | Finish(uid: UID)
    | Poll(gid: Gid, probe: Probe)
    | Send(gid: Gid)
    | GLock(gid: Gid)
    | GDelete(gid: Gid)
    | GUnlock(gid: Gid)

  predicate InPhase(s: State, u: UID, p: RPhase) {
    u in s.reconciles && s.reconciles[u].phase == p
  }

  predicate GInPhase(s: State, g: Gid, p: GPhase) {
    g in s.goroutines && s.goroutines[g].phase == p
  }

  predicate Enabled(s: State, a: Action) {
    match a
    case Enqueue(_) => true
    case Deliver(u) => u in s.inbox
    case Start(u, _, _) => u in s.dirty && u !in s.reconciles
    case Lock(u) => InPhase(s, u, WantsLock) && s.holder.Nobody?
    case Lookup(u) => InPhase(s, u, HasLock)
    case Spawn(u) => InPhase(s, u, Inserted)
    case Unlock(u) => InPhase(s, u, Unlocking)
    case Check(u, _) => InPhase(s, u, Checking)
    case Finish(u) => u in s.reconciles && s.reconciles[u].phase.Finishing?
    case Poll(g, _) => GInPhase(s, g, Polling)
    case Send(g) => GInPhase(s, g, Sending)
    case GLock(g) => GInPhase(s, g, Sent) && s.holder.Nobody?
    case GDelete(g) => GInPhase(s, g, Locked)
    case GUnlock(g) => GInPhase(s, g, Deleted)
  }

  function Move(s: State, u: UID, p: RPhase): map<UID, Reconcile>
    requires u in s.reconciles
  {
    s.reconciles[u := s.reconciles[u].(phase := p)]
  }

  function GMove(s: State, g: Gid, p: GPhase): map<Gid, Goroutine>
    requires g in s.goroutines
  {
    s.goroutines[g := s.goroutines[g].(phase := p)]
  }

  function Apply(s: State, a: Action): State
    requires Enabled(s, a)
  {
    match a
    case Enqueue(u) => s.(dirty := s.dirty + {u})
    case Deliver(u) => s.(inbox := s.inbox - multiset{u}, dirty := s.dirty + {u})
    case Start(u, eligible, returnsEarly) =>
      s.(dirty := s.dirty - {u},
         reconciles := s.reconciles[u := Reconcile(eligible && !returnsEarly,
           if returnsEarly then Finishing(false) else if eligible then WantsLock else Checking)])
    case Lock(u) => s.(holder := Reconciler(u), reconciles := Move(s, u, HasLock))
    case Lookup(u) =>
      if u in s.triggers then s.(reconciles := Move(s, u, Unlocking))
      else s.(triggers := s.triggers + {u}, reconciles := Move(s, u, Inserted))
    case Spawn(u) =>
      s.(goroutines := s.goroutines[s.nextGid := Goroutine(u, Polling)],
         nextGid := s.nextGid + 1,
         spawned := s.spawned + multiset{u},
         reconciles := Move(s, u, Unlocking))
    case Unlock(u) => s.(holder := Nobody, reconciles := Move(s, u, Checking))
    case Check(u, probe) =>
      s.(reconciles := Move(s, u, Finishing(!IsAPIServerOnline(probe).0)),
         seen := if probe.Listed? then s.seen + {u} else s.seen)
    case Finish(u) => s.(reconciles := s.reconciles - {u})
    case Poll(g, probe) =>
      s.(goroutines := if EndsPolling(probe) then GMove(s, g, Sending) else s.goroutines,
         seen := if probe.Listed? then s.seen + {s.goroutines[g].uid} else s.seen)
    case Send(g) =>
      s.(goroutines := GMove(s, g, Sent),
         inbox := s.inbox + multiset{s.goroutines[g].uid},
         sent := s.sent + multiset{s.goroutines[g].uid})
    case GLock(g) => s.(holder := Poller(g), goroutines := GMove(s, g, Locked))
    case GDelete(g) => s.(triggers := s.triggers - {s.goroutines[g].uid}, goroutines := GMove(s, g, Deleted))
    case GUnlock(g) => s.(holder := Nobody, goroutines := s.goroutines - {g})
  }

  ghost predicate Execution(states: seq<State>, acts: seq<Action>) {
    && |states| == |acts| + 1
    && states[0] == INITIAL
    && forall i :: 0 <= i < |acts| ==> StepAt(states, acts, i)
  }

  ghost predicate StepAt(states: seq<State>, acts: seq<Action>, i: int)
    requires |states| == |acts| + 1 && 0 <= i < |acts|
  {
    Enabled(states[i], acts[i]) && states[i + 1] == Apply(states[i], acts[i])
  }

  lemma ExtendExecution(states: seq<State>, acts: seq<Action>, a: Action)
    requires Execution(states, acts) && Enabled(states[|acts|], a)
    ensures Execution(states + [Apply(states[|acts|], a)], acts + [a])
  {
    hide Enabled, Apply;
    var states', acts' := states + [Apply(states[|acts|], a)], acts + [a];
    forall i | 0 <= i < |acts'|
      ensures StepAt(states', acts', i)
    {
      if i < |acts| {
        assert StepAt(states, acts, i);
      }
    }
  }

  // -------------------------------------------------------------------- the invariant

  predicate RHolds(s: State, u: UID) {
    InPhase(s, u, HasLock) || InPhase(s, u, Inserted) || InPhase(s, u, Unlocking)
  }

  predicate GHolds(s: State, g: Gid) {
    GInPhase(s, g, Locked) || GInPhase(s, g, Deleted)
  }

  /** A live goroutine for u that has not yet deleted u from the map. */
  ghost predicate Keeps(s: State, g: Gid, u: UID) {
    g in s.goroutines && s.goroutines[g].uid == u && !s.goroutines[g].phase.Deleted?
  }

  /** The map's entry for u is backed by such a goroutine, or by a reconcile about to spawn it. */
  ghost predicate Backed(s: State, u: UID) {
    InPhase(s, u, Inserted) || exists g :: Keeps(s, g, u)
  }

  ghost predicate LockInv(s: State) {
    && (forall u :: RHolds(s, u) <==> s.holder == Reconciler(u))
    && (forall g :: GHolds(s, g) <==> s.holder == Poller(g))
  }

  ghost predicate UniqueInv(s: State) {
    && (forall g :: g in s.goroutines ==> g < s.nextGid)
    && (forall g, h :: g in s.goroutines && h in s.goroutines && s.goroutines[g].uid == s.goroutines[h].uid ==> g == h)
    && (forall g :: g in s.goroutines ==> !InPhase(s, s.goroutines[g].uid, Inserted))
  }

  ghost predicate MapInv(s: State) {
    forall u :: u in s.triggers <==> Backed(s, u)
  }

  ghost predicate Inv(s: State) {
    LockInv(s) && UniqueInv(s) && MapInv(s)
  }

  lemma InvParts(s: State)
    requires Inv(s)
    ensures LockInv(s) && UniqueInv(s) && MapInv(s)
  {
  }

  lemma StepKeepsLockInv(s: State, a: Action)
    requires LockInv(s) && UniqueInv(s) && Enabled(s, a)
    ensures LockInv(Apply(s, a))
  {
    var s' := Apply(s, a);
    forall u
      ensures RHolds(s', u) <==> s'.holder == Reconciler(u)
    {
      ReconcilerHolds(s, a, u);
    }
    forall g
      ensures GHolds(s', g) <==> s'.holder == Poller(g)
    {
      PollerHolds(s, a, g);
    }
  }

  predicate OfGoroutine(a: Action) {
    a.Poll? || a.Send? || a.GLock? || a.GDelete? || a.GUnlock?
  }

  lemma ReconcilerHolds(s: State, a: Action, u: UID)
    requires LockInv(s) && Enabled(s, a)
    ensures RHolds(Apply(s, a), u) <==> Apply(s, a).holder == Reconciler(u)
  {
    if OfGoroutine(a) {
      ReconcilerHoldsBesides(s, a, u);
    } else {
      assert RHolds(s, u) <==> s.holder == Reconciler(u);
      if a.Unlock? {
        assert RHolds(s, a.uid);
      }
    }
  }

  lemma ReconcilerHoldsBesides(s: State, a: Action, u: UID)
    requires LockInv(s) && Enabled(s, a) && OfGoroutine(a)
    ensures RHolds(Apply(s, a), u) <==> Apply(s, a).holder == Reconciler(u)
  {
    assert RHolds(s, u) <==> s.holder == Reconciler(u);
    if a.GUnlock? {
      assert GHolds(s, a.gid);
    }
  }

  lemma PollerHolds(s: State, a: Action, g: Gid)
    requires LockInv(s) && UniqueInv(s) && Enabled(s, a)
    ensures GHolds(Apply(s, a), g) <==> Apply(s, a).holder == Poller(g)
  {
    if OfGoroutine(a) {
      assert GHolds(s, g) <==> s.holder == Poller(g);
      assert GHolds(s, a.gid) <==> s.holder == Poller(a.gid);
    } else {
      PollerHoldsBesides(s, a, g);
    }
  }

  lemma PollerHoldsBesides(s: State, a: Action, g: Gid)
    requires LockInv(s) && UniqueInv(s) && Enabled(s, a) && !OfGoroutine(a)
    ensures GHolds(Apply(s, a), g) <==> Apply(s, a).holder == Poller(g)
  {
    assert GHolds(s, g) <==> s.holder == Poller(g);
    if a.Unlock? {
      assert RHolds(s, a.uid);
    }
  }

  /** Whoever finds u absent under the lock finds no goroutine for u either. */
  lemma AbsentMeansNoGoroutine(s: State, u: UID, g: Gid)
    requires Inv(s) && s.holder == Reconciler(u) && u !in s.triggers && g in s.goroutines
    ensures s.goroutines[g].uid != u
  {
    assert u in s.triggers <==> Backed(s, u);
    assert !Keeps(s, g, u) && !GHolds(s, g);
  }

  lemma StepKeepsUniqueInv(s: State, a: Action)
    requires Inv(s) && Enabled(s, a)
    ensures UniqueInv(Apply(s, a))
  {
    var s' := Apply(s, a);
    forall g | g in s'.goroutines
      ensures g < s'.nextGid && !InPhase(s', s'.goroutines[g].uid, Inserted)
    {
      NoSecondSpawn(s, a, g);
    }
    forall g, h | g in s'.goroutines && h in s'.goroutines && s'.goroutines[g].uid == s'.goroutines[h].uid
      ensures g == h
    {
      if a.Spawn? {
        assert InPhase(s, a.uid, Inserted);
      }
    }
  }

  lemma NoSecondSpawn(s: State, a: Action, g: Gid)
    requires Inv(s) && Enabled(s, a) && g in Apply(s, a).goroutines
    ensures g < Apply(s, a).nextGid && !InPhase(Apply(s, a), Apply(s, a).goroutines[g].uid, Inserted)
  {
    hide Inv, LockInv, MapInv;
    InvParts(s);
    if a.Lookup? {
      NoSpawnAtLookup(s, a.uid, g);
    } else {
      NoSpawnBesides(s, a, g);
    }
  }

  lemma NoSpawnAtLookup(s: State, u: UID, g: Gid)
    requires Inv(s) && Enabled(s, Lookup(u)) && g in s.goroutines
    ensures !InPhase(Apply(s, Lookup(u)), s.goroutines[g].uid, Inserted)
  {
    hide LockInv, MapInv;
    assert !InPhase(s, s.goroutines[g].uid, Inserted);
    if u !in s.triggers {
      HolderOfLookup(s, u);
      AbsentMeansNoGoroutine(s, u, g);
    }
  }

  lemma NoSpawnBesides(s: State, a: Action, g: Gid)
    requires UniqueInv(s) && Enabled(s, a) && !a.Lookup? && g in Apply(s, a).goroutines
    ensures g < Apply(s, a).nextGid && !InPhase(Apply(s, a), Apply(s, a).goroutines[g].uid, Inserted)
  {
    assert g in s.goroutines ==> !InPhase(s, s.goroutines[g].uid, Inserted);
  }

  lemma HolderOfLookup(s: State, u: UID)
    requires LockInv(s) && Enabled(s, Lookup(u))
    ensures s.holder == Reconciler(u)
  {
    assert RHolds(s, u);
  }

  lemma StepKeepsMapInv(s: State, a: Action)
    requires Inv(s) && Enabled(s, a)
    ensures MapInv(Apply(s, a))
  {
    forall u
      ensures u in Apply(s, a).triggers <==> Backed(Apply(s, a), u)
    {
      StepKeepsBacked(s, a, u);
    }
  }

  lemma StepKeepsBacked(s: State, a: Action, u: UID)
    requires Inv(s) && Enabled(s, a)
    ensures u in Apply(s, a).triggers <==> Backed(Apply(s, a), u)
  {
    assert u in s.triggers <==> Backed(s, u);
    if OfGoroutine(a) {
      GoroutineKeepsBacked(s, a, u);
    } else {
      ReconcileKeepsBacked(s, a, u);
    }
  }

  lemma GoroutineKeepsBacked(s: State, a: Action, u: UID)
    requires UniqueInv(s) && Enabled(s, a) && OfGoroutine(a) && (u in s.triggers <==> Backed(s, u))
    ensures u in Apply(s, a).triggers <==> Backed(Apply(s, a), u)
  {
    var s' := Apply(s, a);
    if a.GDelete? && s.goroutines[a.gid].uid == u {
      assert !InPhase(s, u, Inserted);
      assert forall g :: !Keeps(s', g, u);
    } else {
      assert forall g :: Keeps(s, g, u) <==> Keeps(s', g, u);
    }
  }

  lemma ReconcileKeepsBacked(s: State, a: Action, u: UID)
    requires UniqueInv(s) && Enabled(s, a) && !OfGoroutine(a) && (u in s.triggers <==> Backed(s, u))
    ensures u in Apply(s, a).triggers <==> Backed(Apply(s, a), u)
  {
    var s' := Apply(s, a);
    if a == Spawn(u) {
      assert Keeps(s', s.nextGid, u);
    } else {
      assert forall g :: Keeps(s, g, u) <==> Keeps(s', g, u);
    }
  }

  lemma StepKeepsInv(s: State, a: Action)
    requires Inv(s) && Enabled(s, a)
    ensures Inv(Apply(s, a))
  {
    StepKeepsLockInv(s, a);
    StepKeepsUniqueInv(s, a);
    StepKeepsMapInv(s, a);
  }

  lemma {:induction false} Reachable(states: seq<State>, acts: seq<Action>, i: nat)
    requires Execution(states, acts) && i < |states|
    ensures Inv(states[i])
  {
    if i > 0 {
      Reachable(states, acts, i - 1);
      assert StepAt(states, acts, i - 1);
      StepKeepsInv(states[i - 1], acts[i - 1]);
    }
  }
}
