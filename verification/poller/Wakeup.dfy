/** What the poller protocol guarantees over whole runs: one poller per cluster, one event per
    poller, and when a cluster that is not yet available is sure to be looked at again. */
module Wakeup {
  import opened Poller

  // ------------------------------------------------------------------------ exclusivity

  /** Never two goroutines for one cluster; and while nobody holds the lock, the map lists
      exactly the clusters that have one. */
  lemma Exclusive(states: seq<State>, acts: seq<Action>, i: nat, u: UID)
    requires Execution(states, acts) && i < |states|
    ensures var s := states[i];
      && (forall g, h :: g in s.goroutines && h in s.goroutines && s.goroutines[g].uid == u == s.goroutines[h].uid ==>
            g == h)
      && (s.holder.Nobody? ==> (u in s.triggers <==> exists g :: g in s.goroutines && s.goroutines[g].uid == u))
  {
    Reachable(states, acts, i);
    var s := states[i];
    assert u in s.triggers <==> Backed(s, u);
    if s.holder.Nobody? {
      assert !RHolds(s, u);
      forall g | g in s.goroutines && s.goroutines[g].uid == u
        ensures Keeps(s, g, u)
      {
        assert !GHolds(s, g);
      }
    }
  }

  // ----------------------------------------------------------------------- conservation

  ghost function Unsent(s: State, u: UID): set<Gid> {
    set g | g in s.goroutines && s.goroutines[g].uid == u &&
            (s.goroutines[g].phase.Polling? || s.goroutines[g].phase.Sending?)
  }

  predicate Sends(s: State, a: Action, u: UID) {
    a.Send? && a.gid in s.goroutines && s.goroutines[a.gid].uid == u
  }

  /** Only a spawn and a send change who has yet to send. */
  lemma UnsentStep(s: State, a: Action, u: UID)
    requires UniqueInv(s) && Enabled(s, a)
    ensures a == Spawn(u) ==> Unsent(Apply(s, a), u) == Unsent(s, u) + {s.nextGid} && s.nextGid !in Unsent(s, u)
    ensures Sends(s, a, u) ==> Unsent(Apply(s, a), u) == Unsent(s, u) - {a.gid} && a.gid in Unsent(s, u)
    ensures a != Spawn(u) && !Sends(s, a, u) ==> Unsent(Apply(s, a), u) == Unsent(s, u)
  {
    if OfGoroutine(a) {
      UnsentGoroutineStep(s, a, u);
    } else {
      UnsentReconcileStep(s, a, u);
    }
  }

  lemma UnsentGoroutineStep(s: State, a: Action, u: UID)
    requires Enabled(s, a) && OfGoroutine(a)
    ensures Unsent(Apply(s, a), u) == if Sends(s, a, u) then Unsent(s, u) - {a.gid} else Unsent(s, u)
    ensures Sends(s, a, u) ==> a.gid in Unsent(s, u)
  {
    forall g
      ensures g in Unsent(Apply(s, a), u) <==> g in Unsent(s, u) && !(Sends(s, a, u) && g == a.gid)
    {
    }
  }

  lemma UnsentReconcileStep(s: State, a: Action, u: UID)
    requires UniqueInv(s) && Enabled(s, a) && !OfGoroutine(a)
    ensures Unsent(Apply(s, a), u) == if a == Spawn(u) then Unsent(s, u) + {s.nextGid} else Unsent(s, u)
    ensures s.nextGid !in Unsent(s, u)
  {
    forall g
      ensures g in Unsent(Apply(s, a), u) <==> g in Unsent(s, u) || (a == Spawn(u) && g == s.nextGid)
    {
    }
  }

  ghost predicate Conserved(s: State, u: UID) {
    s.spawned[u] == s.sent[u] + |Unsent(s, u)|
  }

  lemma StepConserves(s: State, a: Action, u: UID)
    requires UniqueInv(s) && Enabled(s, a) && Conserved(s, u)
    ensures Conserved(Apply(s, a), u)
  {
    hide Unsent, UniqueInv;
    UnsentStep(s, a, u);
  }

  /** Goroutines spawned for a cluster: as many as events sent for it, plus those that have not sent. */
  lemma {:induction false} EventConservation(states: seq<State>, acts: seq<Action>, i: nat, u: UID)
    requires Execution(states, acts) && i < |states|
    ensures Conserved(states[i], u)
  {
    if i > 0 {
      EventConservation(states, acts, i - 1, u);
      Reachable(states, acts, i - 1);
      assert StepAt(states, acts, i - 1);
      StepConserves(states[i - 1], acts[i - 1], u);
    } else {
      assert Unsent(states[0], u) == {};
    }
  }

  ghost predicate PastSend(s: State, g: Gid) {
    g < s.nextGid && !GInPhase(s, g, Polling) && !GInPhase(s, g, Sending)
  }

  lemma {:induction false} StaysPastSend(states: seq<State>, acts: seq<Action>, i: nat, j: nat, g: Gid)
    requires Execution(states, acts) && i < j < |states| && acts[i] == Send(g)
    ensures PastSend(states[j], g)
    decreases j
  {
    Reachable(states, acts, j - 1);
    assert StepAt(states, acts, j - 1) && UniqueInv(states[j - 1]);
    if i < j - 1 {
      StaysPastSend(states, acts, i, j - 1, g);
    }
    PastSendStep(states[j - 1], acts[j - 1], g);
  }

  lemma PastSendStep(s: State, a: Action, g: Gid)
    requires UniqueInv(s) && Enabled(s, a) && (PastSend(s, g) || a == Send(g))
    ensures PastSend(Apply(s, a), g)
  {
  }

  /** No goroutine sends twice. */
  lemma SendsOnce(states: seq<State>, acts: seq<Action>, i: nat, j: nat, g: Gid)
    requires Execution(states, acts) && i < j < |acts| && acts[i] == Send(g)
    ensures acts[j] != Send(g)
  {
    StaysPastSend(states, acts, i, j, g);
    assert StepAt(states, acts, j);
  }

  // --------------------------------------------------------------------------- wake-ups

  /** The cluster will be reconciled again: its poller has yet to send, or an event is on its way. */
  ghost predicate WakeupPending(s: State, u: UID) {
    Unsent(s, u) != {} || u in s.inbox || u in s.dirty
  }

  /** A reconcile of u that has looked at the map but not yet finished. */
  ghost predicate PastLookup(s: State, u: UID) {
    u in s.reconciles && !s.reconciles[u].phase.WantsLock? && !s.reconciles[u].phase.HasLock?
  }

  /** As WakeupPending, once a spawn that is certain to come has come. */
  ghost predicate WakeupPromised(s: State, u: UID) {
    InPhase(s, u, Inserted) || WakeupPending(s, u)
  }

  /** After the lookup nothing decides the wake-up any more, in either direction,
      except a new event from outside. */
  lemma WakeupIsDecided(s: State, a: Action, u: UID)
    requires Inv(s) && Enabled(s, a) && PastLookup(s, u) && a != Enqueue(u)
    ensures WakeupPromised(s, u) <==> WakeupPromised(Apply(s, a), u)
    ensures PastLookup(Apply(s, a), u) || a == Finish(u)
  {
    hide Inv, PastLookup, WakeupPromised, Apply, Enabled;
    InvParts(s);
    if OfGoroutine(a) {
      DecidedByGoroutine(s, a, u);
    } else {
      DecidedByReconcile(s, a, u);
    }
  }

  lemma DecidedByGoroutine(s: State, a: Action, u: UID)
    requires UniqueInv(s) && Enabled(s, a) && OfGoroutine(a) && PastLookup(s, u)
    ensures WakeupPromised(s, u) <==> WakeupPromised(Apply(s, a), u)
    ensures PastLookup(Apply(s, a), u)
  {
    hide Unsent, UniqueInv;
    UnsentStep(s, a, u);
  }

  lemma DecidedByReconcile(s: State, a: Action, u: UID)
    requires UniqueInv(s) && Enabled(s, a) && !OfGoroutine(a) && PastLookup(s, u) && a != Enqueue(u)
    ensures WakeupPromised(s, u) <==> WakeupPromised(Apply(s, a), u)
    ensures PastLookup(Apply(s, a), u) || a == Finish(u)
  {
    hide Unsent, UniqueInv;
    UnsentStep(s, a, u);
  }

  /** Nothing from outside asks for u, and its reconcile goes on, from state i to step j. */
  ghost predicate Undisturbed(acts: seq<Action>, i: nat, j: nat, u: UID)
    requires i <= j < |acts|
  {
    (forall k :: i <= k < j ==> acts[k] != Enqueue(u) && acts[k] != Finish(u)) && acts[j] == Finish(u)
  }

  lemma {:induction false} PromiseIsKept(states: seq<State>, acts: seq<Action>, i: nat, j: nat, u: UID)
    requires Execution(states, acts) && i <= j < |acts| && Undisturbed(acts, i, j, u)
    requires PastLookup(states[i], u)
    ensures WakeupPromised(states[i], u) <==> WakeupPending(states[j + 1], u)
    decreases j - i
  {
    Reachable(states, acts, i);
    assert StepAt(states, acts, i);
    WakeupIsDecided(states[i], acts[i], u);
    if i < j {
      PromiseIsKept(states, acts, i + 1, j, u);
    }
  }

  /** Exactly when a reconcile leaves a wake-up behind: when its lookup under the lock finds no entry, so
      that it starts a poller, or one that has yet to send, or an event already on its way. The entry of
      a poller that has sent and not yet deleted it is the case in which the wake-up is lost. */
  lemma WakeupIff(states: seq<State>, acts: seq<Action>, i: nat, j: nat, u: UID)
    requires Execution(states, acts) && i < j < |acts| && Undisturbed(acts, i + 1, j, u)
    requires acts[i] == Lookup(u)
    ensures WakeupPending(states[j + 1], u) <==> u !in states[i].triggers || WakeupPending(states[i], u)
  {
    assert StepAt(states, acts, i);
    assert Unsent(states[i + 1], u) == Unsent(states[i], u);
    PromiseIsKept(states, acts, i + 1, j, u);
  }

  // ----------------------------------------------------- under a steady API server

  /** Once seen online, never seen otherwise; and polls end only by seeing it online. */
  predicate Steady(s: State, a: Action) {
    match a
    case Check(u, probe) => u in s.seen ==> probe.Listed?
    case Poll(g, probe) =>
      g in s.goroutines && (s.goroutines[g].uid in s.seen ==> probe.Listed?) && (EndsPolling(probe) ==> probe.Listed?)
    case _ => true
  }

  /** Under a steady API server. A poller past its polling has seen it online; an eligible reconcile that
      is past the lock has a wake-up coming unless the API server has been seen online, in which case
      its own check will find it online. */
  ghost predicate SteadyInv(s: State) {
    && (forall g :: g in s.goroutines && !s.goroutines[g].phase.Polling? ==> s.goroutines[g].uid in s.seen)
    && (forall u :: u in s.reconciles && s.reconciles[u].eligible ==> Awaits(s, u))
  }

  ghost predicate Awaits(s: State, u: UID)
    requires u in s.reconciles
  {
    match s.reconciles[u].phase
    case Unlocking => WakeupPending(s, u) || u in s.seen
    case Checking => WakeupPending(s, u) || u in s.seen
    case Finishing(notReady) => notReady ==> WakeupPending(s, u)
    case _ => true
  }

  lemma SteadyStep(s: State, a: Action, u: UID)
    requires Inv(s) && SteadyInv(s) && Enabled(s, a) && Steady(s, a)
    ensures u in Apply(s, a).reconciles && Apply(s, a).reconciles[u].eligible ==> Awaits(Apply(s, a), u)
  {
    if OfGoroutine(a) {
      SteadyGoroutineStep(s, a, u);
    } else {
      SteadyReconcileStep(s, a, u);
    }
  }

  lemma SteadyGoroutineStep(s: State, a: Action, u: UID)
    requires UniqueInv(s) && Enabled(s, a) && OfGoroutine(a)
    requires u in s.reconciles && s.reconciles[u].eligible ==> Awaits(s, u)
    ensures u in Apply(s, a).reconciles && Apply(s, a).reconciles[u].eligible ==> Awaits(Apply(s, a), u)
  {
    hide Unsent, UniqueInv;
    UnsentStep(s, a, u);
  }

  lemma SteadyReconcileStep(s: State, a: Action, u: UID)
    requires Inv(s) && SteadyInv(s) && Enabled(s, a) && Steady(s, a) && !OfGoroutine(a)
    ensures u in Apply(s, a).reconciles && Apply(s, a).reconciles[u].eligible ==> Awaits(Apply(s, a), u)
  {
    hide Inv, Apply, Awaits, Steady;
    InvParts(s);
    if a == Lookup(u) {
      SteadyLookup(s, u);
    } else {
      SteadyStepBesides(s, a, u);
    }
  }

  lemma SteadyLookup(s: State, u: UID)
    requires Inv(s) && SteadyInv(s) && Enabled(s, Lookup(u))
    ensures u in Apply(s, Lookup(u)).reconciles ==> Awaits(Apply(s, Lookup(u)), u)
  {
    hide Unsent, LockInv, UniqueInv, MapInv;
    UnsentStep(s, Lookup(u), u);
    if u in s.triggers {
      PollerAwaits(s, u);
    }
  }

  lemma SteadyStepBesides(s: State, a: Action, u: UID)
    requires UniqueInv(s) && Enabled(s, a) && Steady(s, a) && !OfGoroutine(a) && a != Lookup(u)
    requires u in s.reconciles && s.reconciles[u].eligible ==> Awaits(s, u)
    ensures u in Apply(s, a).reconciles && Apply(s, a).reconciles[u].eligible ==> Awaits(Apply(s, a), u)
  {
    hide Unsent, UniqueInv;
    UnsentStep(s, a, u);
  }

  /** A poller in the map has yet to send, or has seen the API server online. */
  lemma PollerAwaits(s: State, u: UID)
    requires Inv(s) && SteadyInv(s) && InPhase(s, u, HasLock) && u in s.triggers
    ensures WakeupPending(s, u) || u in s.seen
  {
    assert Backed(s, u);
    var g :| Keeps(s, g, u);
    assert s.goroutines[g].phase.Polling? ==> g in Unsent(s, u);
  }

  lemma SteadyStepKeepsInv(s: State, a: Action)
    requires Inv(s) && SteadyInv(s) && Enabled(s, a) && Steady(s, a)
    ensures SteadyInv(Apply(s, a))
  {
    forall u | u in Apply(s, a).reconciles && Apply(s, a).reconciles[u].eligible
      ensures Awaits(Apply(s, a), u)
    {
      SteadyStep(s, a, u);
    }
  }

  ghost predicate SteadyRun(states: seq<State>, acts: seq<Action>)
    requires |states| == |acts| + 1
  {
    forall i :: 0 <= i < |acts| ==> Steady(states[i], acts[i])
  }

  lemma {:induction false} SteadyReachable(states: seq<State>, acts: seq<Action>, i: nat)
    requires Execution(states, acts) && SteadyRun(states, acts) && i < |states|
    ensures SteadyInv(states[i])
  {
    if i > 0 {
      SteadyReachable(states, acts, i - 1);
      Reachable(states, acts, i - 1);
      assert StepAt(states, acts, i - 1) && Steady(states[i - 1], acts[i - 1]);
      SteadyStepKeepsInv(states[i - 1], acts[i - 1]);
    }
  }

  /** No lost wake-up: a reconcile that reports the API server not ready, of a cluster neither initialised
      nor being deleted, leaves a poller that has yet to send, or an event on its way. */
  lemma NoLostWakeup(states: seq<State>, acts: seq<Action>, i: nat, u: UID)
    requires Execution(states, acts) && SteadyRun(states, acts) && i < |acts| && acts[i] == Finish(u)
    requires u in states[i].reconciles && states[i].reconciles[u] == Reconcile(true, Finishing(true))
    ensures WakeupPending(states[i + 1], u)
  {
    SteadyReachable(states, acts, i);
    assert StepAt(states, acts, i);
    assert Awaits(states[i], u);
    assert Unsent(states[i + 1], u) == Unsent(states[i], u);
  }

  // --------------------------------------------------------- under one that flaps

  /** A run that ends in state s. */
  ghost predicate EndsIn(states: seq<State>, acts: seq<Action>, s: State) {
    Execution(states, acts) && states[|acts|] == s
  }

  /** One more step. */
  lemma Then(states: seq<State>, acts: seq<Action>, s: State, a: Action)
      returns (states': seq<State>, acts': seq<Action>)
    requires EndsIn(states, acts, s) && Enabled(s, a)
    ensures EndsIn(states', acts', Apply(s, a)) && acts' == acts + [a] && states <= states'
  {
    ExtendExecution(states, acts, a);
    states', acts' := states + [Apply(s, a)], acts + [a];
  }

  /** The states the run passes through: one goroutine at most, and one reconcile of u. */
  function Alone(u: UID, phase: GPhase, reconciles: map<UID, Reconcile>): State {
    if phase.Polling? then
      State(Nobody, {u}, map[0 := Goroutine(u, phase)], 1, reconciles, multiset{}, {}, {}, multiset{u}, multiset{})
    else
      State(Nobody, {u}, map[0 := Goroutine(u, phase)], 1, reconciles, multiset{}, {}, {u}, multiset{u}, multiset{u})
  }

  function EntryOnly(u: UID): State {
    INITIAL.(holder := Reconciler(u), triggers := {u}, reconciles := map[u := Reconcile(true, Inserted)])
  }

  /** The first reconcile of u finds no entry under the lock and inserts one. */
  lemma EntryInserted(u: UID) returns (states: seq<State>, acts: seq<Action>)
    ensures EndsIn(states, acts, EntryOnly(u))
  {
    hide EndsIn;
    var s0 := INITIAL;
    states, acts := [s0], [];
    assert EndsIn(states, acts, s0) by {
      EmptyRun();
    }
    states, acts := Then(states, acts, s0, Enqueue(u));
    var s1 := s0.(dirty := {u});
    assert Apply(s0, Enqueue(u)) == s1;
    states, acts := Then(states, acts, s1, Start(u, true, false));
    var s2 := s0.(reconciles := map[u := Reconcile(true, WantsLock)]);
    assert Apply(s1, Start(u, true, false)) == s2;
    states, acts := Then(states, acts, s2, Lock(u));
    var s3 := s0.(holder := Reconciler(u), reconciles := map[u := Reconcile(true, HasLock)]);
    assert Apply(s2, Lock(u)) == s3;
    states, acts := Then(states, acts, s3, Lookup(u));
    assert Apply(s3, Lookup(u)) == EntryOnly(u);
  }

  lemma EmptyRun()
    ensures EndsIn([INITIAL], [], INITIAL)
  {
  }

  /** It starts a poller. */
  lemma PollerStarts(u: UID) returns (states: seq<State>, acts: seq<Action>)
    ensures EndsIn(states, acts, Alone(u, Polling, map[u := Reconcile(true, Checking)]))
  {
    hide EndsIn;
    states, acts := EntryInserted(u);
    states, acts := Then(states, acts, EntryOnly(u), Spawn(u));
    var s1 := Alone(u, Polling, map[u := Reconcile(true, Unlocking)]).(holder := Reconciler(u));
    assert Apply(EntryOnly(u), Spawn(u)) == s1;
    states, acts := Then(states, acts, s1, Unlock(u));
    assert Apply(s1, Unlock(u)) == Alone(u, Polling, map[u := Reconcile(true, Checking)]);
  }

  /** It finds the API server offline and finishes. */
  lemma PollerIsLeft(u: UID) returns (states: seq<State>, acts: seq<Action>)
    ensures EndsIn(states, acts, Alone(u, Polling, map[]))
  {
    hide EndsIn;
    states, acts := PollerStarts(u);
    var s0 := Alone(u, Polling, map[u := Reconcile(true, Checking)]);
    states, acts := Then(states, acts, s0, Check(u, NoClient));
    var s1 := Alone(u, Polling, map[u := Reconcile(true, Finishing(true))]);
    assert Apply(s0, Check(u, NoClient)) == s1;
    states, acts := Then(states, acts, s1, Finish(u));
    assert Apply(s1, Finish(u)) == Alone(u, Polling, map[]);
  }

  /** Its poller sees the API server online and sends its event, which is queued; the poller
      has not yet taken u off the map. */
  lemma PollerHasSent(u: UID) returns (states: seq<State>, acts: seq<Action>)
    ensures EndsIn(states, acts, Alone(u, Sent, map[]).(dirty := {u}))
  {
    hide EndsIn;
    states, acts := PollerIsLeft(u);
    var s0 := Alone(u, Polling, map[]);
    states, acts := Then(states, acts, s0, Poll(0, Listed));
    var s1 := s0.(goroutines := map[0 := Goroutine(u, Sending)], seen := {u});
    assert Apply(s0, Poll(0, Listed)) == s1;
    states, acts := Then(states, acts, s1, Send(0));
    var s2 := Alone(u, Sent, map[]).(inbox := multiset{u});
    assert Apply(s1, Send(0)) == s2;
    states, acts := Then(states, acts, s2, Deliver(u));
    assert Apply(s2, Deliver(u)) == Alone(u, Sent, map[]).(dirty := {u});
  }

  /** The reconcile that the event brings locks the map. */
  lemma LockedAgain(u: UID) returns (states: seq<State>, acts: seq<Action>)
    ensures EndsIn(states, acts, Alone(u, Sent, map[u := Reconcile(true, HasLock)]).(holder := Reconciler(u)))
  {
    hide EndsIn;
    states, acts := PollerHasSent(u);
    var s0 := Alone(u, Sent, map[]).(dirty := {u});
    states, acts := Then(states, acts, s0, Start(u, true, false));
    var s1 := Alone(u, Sent, map[u := Reconcile(true, WantsLock)]);
    assert Apply(s0, Start(u, true, false)) == s1;
    states, acts := Then(states, acts, s1, Lock(u));
    assert Apply(s1, Lock(u)) == Alone(u, Sent, map[u := Reconcile(true, HasLock)]).(holder := Reconciler(u));
  }

  /** It finds the entry still there. */
  lemma EntryFound(u: UID) returns (states: seq<State>, acts: seq<Action>)
    ensures EndsIn(states, acts, Alone(u, Sent, map[u := Reconcile(true, Checking)]))
  {
    hide EndsIn;
    states, acts := LockedAgain(u);
    var s0 := Alone(u, Sent, map[u := Reconcile(true, HasLock)]).(holder := Reconciler(u));
    states, acts := Then(states, acts, s0, Lookup(u));
    var s1 := Alone(u, Sent, map[u := Reconcile(true, Unlocking)]).(holder := Reconciler(u));
    assert Apply(s0, Lookup(u)) == s1;
    states, acts := Then(states, acts, s1, Unlock(u));
    assert Apply(s1, Unlock(u)) == Alone(u, Sent, map[u := Reconcile(true, Checking)]);
  }

  /** If the API server then goes offline again, the wake-up is lost: the reconcile that the event
      brought reports it not ready, with no event queued and no poller that has yet to send. */
  lemma FlappingLosesWakeup(u: UID) returns (states: seq<State>, acts: seq<Action>)
    ensures Execution(states, acts) && |acts| > 0 && acts[|acts| - 1] == Finish(u)
    ensures u in states[|acts| - 1].reconciles && states[|acts| - 1].reconciles[u] == Reconcile(true, Finishing(true))
    ensures !WakeupPending(states[|acts|], u)
  {
    states, acts := EntryFound(u);
    var s1 := Alone(u, Sent, map[u := Reconcile(true, Checking)]);
    states, acts := Then(states, acts, s1, Check(u, ListFailed));
    var s2 := Alone(u, Sent, map[u := Reconcile(true, Finishing(true))]);
    assert Apply(s1, Check(u, ListFailed)) == s2;
    ghost var before, earlier := states, acts;
    states, acts := Then(states, acts, s2, Finish(u));
    assert Apply(s2, Finish(u)) == Alone(u, Sent, map[]);
    assert Unsent(Alone(u, Sent, map[]), u) == {};
    assert states[|acts| - 1] == before[|earlier|];
  }
}
