/** The poller code as it runs, against the shared map, lock, channel and queue. Each method is a
    run of the protocol, with the other goroutines and reconciles in between. */
module PollerHost {
  import opened Poller
  import Wakeup

  /** Whose steps a piece of code takes. */
  datatype Actor = AReconcile(uid: UID) | AGoroutine(gid: Gid)

  predicate StepOf(a: Action, me: Actor) {
    match a
    case Enqueue(_) => false
    case Deliver(_) => false
    case Start(u, _, _) => me == AReconcile(u)
    case Lock(u) => me == AReconcile(u)
    case Lookup(u) => me == AReconcile(u)
    case Spawn(u) => me == AReconcile(u)
    case Unlock(u) => me == AReconcile(u)
    case Check(u, _) => me == AReconcile(u)
    case Finish(u) => me == AReconcile(u)
    case Poll(g, _) => me == AGoroutine(g)
    case Send(g) => me == AGoroutine(g)
    case GLock(g) => me == AGoroutine(g)
    case GDelete(g) => me == AGoroutine(g)
    case GUnlock(g) => me == AGoroutine(g)
  }

  /** What the others' steps leave alone: the actor's own state, and the count of what only it does.
      While it holds the lock the map is its own as well. */
  ghost predicate SameFor(s: State, s': State, me: Actor) {
    match me
    case AReconcile(u) =>
      && (u in s.reconciles <==> u in s'.reconciles) && (u in s.reconciles ==> s'.reconciles[u] == s.reconciles[u])
      && s'.spawned[u] == s.spawned[u]
    case AGoroutine(g) =>
      g in s.goroutines ==>
        && g in s'.goroutines && s'.goroutines[g] == s.goroutines[g]
        && s'.sent[s.goroutines[g].uid] == s.sent[s.goroutines[g].uid]
        && (s.holder == Poller(g) ==> s'.holder == Poller(g) && s'.triggers == s.triggers)
  }

  /** A turn of the others: each of its steps that can happen does, in order, but none of the actor's own. */
  function Turn(s: State, turn: seq<Action>, me: Actor): State {
    if turn == [] then s
    else
      var s', a := Turn(s, turn[..|turn| - 1], me), turn[|turn| - 1];
      if Enabled(s', a) && !StepOf(a, me) then Apply(s', a) else s'
  }

  lemma OthersLeaveMeAlone(s: State, a: Action, me: Actor)
    requires Inv(s) && Enabled(s, a) && !StepOf(a, me)
    ensures SameFor(s, Apply(s, a), me)
  {
    InvParts(s);
    match me
    case AReconcile(u) => OthersLeaveReconcileAlone(s, a, u);
    case AGoroutine(g) => OthersLeaveGoroutineAlone(s, a, g);
  }

  lemma OthersLeaveReconcileAlone(s: State, a: Action, u: UID)
    requires UniqueInv(s) && Enabled(s, a) && !StepOf(a, AReconcile(u))
    ensures SameFor(s, Apply(s, a), AReconcile(u))
  {
  }

  lemma OthersLeaveGoroutineAlone(s: State, a: Action, g: Gid)
    requires LockInv(s) && UniqueInv(s) && Enabled(s, a) && !StepOf(a, AGoroutine(g))
    ensures SameFor(s, Apply(s, a), AGoroutine(g))
  {
    if OfGoroutine(a) {
      if g in s.goroutines {
        assert GHolds(s, a.gid) <==> s.holder == Poller(a.gid);
      }
    } else if !a.Enqueue? && !a.Deliver? {
      assert RHolds(s, a.uid) <==> s.holder == Reconciler(a.uid);
    }
  }

  /** Step i is the lookup of u under the lock, in a state whose map has an entry for u exactly if `found`. */
  ghost predicate LookedUp(states: seq<State>, acts: seq<Action>, i: int, u: UID, found: bool) {
    0 <= i < |acts| && i < |states| && acts[i] == Lookup(u) && (found <==> u in states[i].triggers)
  }

  lemma StillLookedUp(states: seq<State>, acts: seq<Action>, states': seq<State>, acts': seq<Action>, i: int, u: UID,
                      found: bool)
    requires LookedUp(states, acts, i, u, found) && acts <= acts' && states <= states'
    ensures LookedUp(states', acts', i, u, found)
  {
  }

  class Host {
    var st: State
    /** What the others do before each of our steps. */
    var schedule: seq<seq<Action>>
    ghost var states: seq<State>
    ghost var acts: seq<Action>

    ghost predicate Valid()
      reads this
    {
      Execution(states, acts) && st == states[|acts|]
    }

    constructor (schedule: seq<seq<Action>>)
      ensures Valid() && acts == []
    {
      this.st := INITIAL;
      this.schedule := schedule;
      this.states := [INITIAL];
      this.acts := [];
    }

    method Do(a: Action)
      requires Valid() && Enabled(st, a)
      modifies this`st, this`states, this`acts
      ensures Valid() && st == Apply(old(st), a)
      ensures acts == old(acts) + [a] && states == old(states) + [st]
    {
      hide Enabled, Apply;
      ExtendExecution(states, acts, a);
      st := Apply(st, a);
      states, acts := states + [st], acts + [a];
    }

    ghost predicate Extends(states0: seq<State>, acts0: seq<Action>)
      reads this
    {
      Valid() && acts0 <= acts && states0 <= states
    }

    ghost predicate RAt(u: UID, p: RPhase)
      reads this
    {
      u in st.reconciles && st.reconciles[u] == Reconcile(true, p)
    }

    ghost predicate GAt(g: Gid, u: UID, p: GPhase)
      reads this
    {
      g in st.goroutines && st.goroutines[g] == Goroutine(u, p)
    }

    // the reconciler's steps

    method Acquire(u: UID)
      requires Valid() && RAt(u, WantsLock) && st.holder.Nobody?
      modifies this`st, this`states, this`acts
      ensures Extends(old(states), old(acts)) && RAt(u, HasLock)
      ensures st.spawned == old(st).spawned
    {
      Do(Lock(u));
    }

    method LookupOrInsert(u: UID) returns (found: bool)
      requires Valid() && RAt(u, HasLock)
      modifies this`st, this`states, this`acts
      ensures Extends(old(states), old(acts)) && RAt(u, if found then Unlocking else Inserted)
      ensures LookedUp(states, acts, |acts| - 1, u, found) && |acts| > |old(acts)|
      ensures st.spawned == old(st).spawned
    {
      found := u in st.triggers;
      Shape();
      Do(Lookup(u));
    }

    method Go(u: UID)
      requires Valid() && RAt(u, Inserted)
      modifies this`st, this`states, this`acts
      ensures Extends(old(states), old(acts)) && RAt(u, Unlocking)
      ensures st.spawned == old(st).spawned + multiset{u}
    {
      Do(Spawn(u));
    }

    method Release(u: UID)
      requires Valid() && RAt(u, Unlocking)
      modifies this`st, this`states, this`acts
      ensures Extends(old(states), old(acts)) && RAt(u, Checking) && st.holder.Nobody?
      ensures st.spawned == old(st).spawned
    {
      Do(Unlock(u));
    }

    // the goroutine's steps

    method PollOnce(g: Gid, ghost u: UID, probe: Probe)
      requires Valid() && GAt(g, u, Polling)
      modifies this`st, this`states, this`acts
      ensures Extends(old(states), old(acts)) && GAt(g, u, if EndsPolling(probe) then Sending else Polling)
      ensures st.sent == old(st).sent
    {
      Do(Poll(g, probe));
    }

    method SendEvent(g: Gid, ghost u: UID)
      requires Valid() && GAt(g, u, Sending)
      modifies this`st, this`states, this`acts
      ensures Extends(old(states), old(acts)) && GAt(g, u, Sent)
      ensures st.sent == old(st).sent + multiset{u}
    {
      Do(Send(g));
    }

    method GAcquire(g: Gid, ghost u: UID)
      requires Valid() && GAt(g, u, Sent) && st.holder.Nobody?
      modifies this`st, this`states, this`acts
      ensures Extends(old(states), old(acts)) && GAt(g, u, Locked) && st.holder == Poller(g)
      ensures st.sent == old(st).sent
    {
      Do(GLock(g));
    }

    method RemoveEntry(g: Gid, ghost u: UID)
      requires Valid() && GAt(g, u, Locked)
      modifies this`st, this`states, this`acts
      ensures Extends(old(states), old(acts)) && GAt(g, u, Deleted) && st.holder == old(st).holder
      ensures st.triggers == old(st).triggers - {u} && st.sent == old(st).sent
    {
      Do(GDelete(g));
    }

    method GRelease(g: Gid, ghost u: UID)
      requires Valid() && GAt(g, u, Deleted)
      modifies this`st, this`states, this`acts
      ensures Extends(old(states), old(acts)) && g !in st.goroutines && st.holder.Nobody?
      ensures st.triggers == old(st).triggers && st.sent == old(st).sent
    {
      Do(GUnlock(g));
    }

    /** The others' turn. */
    method Yield(me: Actor)
      requires Valid()
      modifies this
      ensures Valid() && old(acts) <= acts && old(states) <= states
      ensures st == if old(schedule) == [] then old(st) else Turn(old(st), old(schedule)[0], me)
      ensures SameFor(old(st), st, me)
      ensures schedule == if old(schedule) == [] then [] else old(schedule)[1..]
    {
      hide Enabled, Apply, Inv;
      if schedule != [] {
        var turn := schedule[0];
        schedule := schedule[1..];
        var i := 0;
        while i < |turn|
          invariant 0 <= i <= |turn| && st == Turn(old(st), turn[..i], me)
          invariant Valid() && old(acts) <= acts && old(states) <= states && SameFor(old(st), st, me)
          invariant schedule == old(schedule)[1..]
        {
          assert turn[..i + 1][..i] == turn[..i];
          if Enabled(st, turn[i]) && !StepOf(turn[i], me) {
            Reachable(states, acts, |acts|);
            OthersLeaveMeAlone(st, turn[i], me);
            Do(turn[i]);
          }
          i := i + 1;
        }
        assert turn[..i] == turn;
      }
    }

    /** Waits for the lock to be free; false if it still is not when the schedule ends. */
    method AwaitLock(me: Actor) returns (free: bool)
      requires Valid()
      modifies this
      ensures Valid() && old(acts) <= acts && old(states) <= states
      ensures SameFor(old(st), st, me) && (free ==> st.holder.Nobody?)
    {
      Yield(me);
      while !st.holder.Nobody? && schedule != []
        invariant Valid() && old(acts) <= acts && old(states) <= states && SameFor(old(st), st, me)
        decreases |schedule|
      {
        Yield(me);
      }
      free := st.holder.Nobody?;
    }

    /** Starts a poller for the cluster unless there is one. `finished` is false only if the lock
        was never free. */
    method ReconcileWhenAPIServerIsOnline(u: UID, initialized: bool, deleting: bool)
        returns (finished: bool, ghost lookup: int, ghost found: bool)
      requires Valid() && u in st.reconciles
      requires st.reconciles[u] ==
        if initialized || deleting then Reconcile(false, Checking) else Reconcile(true, WantsLock)
      modifies this
      ensures Valid() && old(acts) <= acts && old(states) <= states
      ensures u in st.reconciles
      ensures finished ==> st.reconciles[u] == Reconcile(!initialized && !deleting, Checking)
      ensures !finished ==> st.reconciles[u] == Reconcile(true, WantsLock)
      ensures initialized || deleting ==> finished && unchanged(this)
      // a goroutine is spawned exactly if the lookup finds no entry
      ensures finished && !initialized && !deleting ==>
        |old(acts)| <= lookup && LookedUp(states, acts, lookup, u, found)
      ensures st.spawned[u] ==
        old(st).spawned[u] + (if finished && !initialized && !deleting && !found then 1 else 0)
    {
      hide Execution, Inv, Valid, Enabled, Apply, LookedUp;
      lookup, found := 0, false;
      if initialized {
        return true, lookup, found;
      } else if deleting {
        return true, lookup, found;
      }
      finished := AwaitLock(AReconcile(u));
      if finished {
        Acquire(u);
        lookup, found := SpawnUnlessPresent(u);
      }
    }

    /** The part under the lock, which is released at its end. */
    method SpawnUnlessPresent(u: UID) returns (ghost lookup: int, ghost found: bool)
      requires Valid() && RAt(u, HasLock)
      modifies this
      ensures Valid() && old(acts) <= acts && old(states) <= states && RAt(u, Checking)
      ensures |old(acts)| <= lookup && LookedUp(states, acts, lookup, u, found)
      ensures st.spawned[u] == old(st).spawned[u] + (if found then 0 else 1)
    {
      hide Execution, Inv, Valid, Enabled, Apply, LookedUp;
      var me := AReconcile(u);
      Yield(me);
      var present := LookupOrInsert(u);
      lookup, found := |acts| - 1, present;
      ghost var states1, acts1 := states, acts;
      if !present {
        Yield(me);
        Go(u);
      }
      Yield(me);
      Release(u);
      StillLookedUp(states1, acts1, states, acts, lookup, u, found);
    }

    /** The last part of a cluster's reconcile: make sure of a poller, then look for oneself. An offline
        answer for an eligible cluster leaves a wake-up behind whenever the API server is steady. */
    method CheckAPIServer(u: UID, initialized: bool, deleting: bool, probe: Probe)
        returns (finished: bool, online: bool)
      requires Valid() && u in st.reconciles
      requires st.reconciles[u] ==
        if initialized || deleting then Reconcile(false, Checking) else Reconcile(true, WantsLock)
      modifies this
      ensures Valid() && old(acts) <= acts && old(states) <= states
      ensures finished ==> u !in st.reconciles && online == probe.Listed?
      ensures |states| == |acts| + 1
      ensures finished && !online && !initialized && !deleting && Wakeup.SteadyRun(states, acts) ==>
        Wakeup.WakeupPending(st, u)
    {
      hide Execution, Inv, Valid, Enabled, Apply, Wakeup.SteadyRun, Wakeup.WakeupPending;
      ghost var lookup, found;
      finished, lookup, found := ReconcileWhenAPIServerIsOnline(u, initialized, deleting);
      if finished {
        var me, eligible := AReconcile(u), !initialized && !deleting;
        Yield(me);
        online := Look(u, eligible, probe);
        Yield(me);
        End(u, eligible, !online);
      } else {
        online := false;
      }
      Shape();
    }

    method Look(u: UID, ghost eligible: bool, probe: Probe) returns (online: bool)
      requires Valid() && u in st.reconciles && st.reconciles[u] == Reconcile(eligible, Checking)
      modifies this`st, this`states, this`acts
      ensures Extends(old(states), old(acts)) && online == probe.Listed?
      ensures u in st.reconciles && st.reconciles[u] == Reconcile(eligible, Finishing(!online))
    {
      hide Execution;
      Do(Check(u, probe));
      online := IsAPIServerOnline(probe).0;
    }

    method End(u: UID, ghost eligible: bool, ghost notReady: bool)
      requires Valid() && u in st.reconciles && st.reconciles[u] == Reconcile(eligible, Finishing(notReady))
      modifies this`st, this`states, this`acts
      ensures Extends(old(states), old(acts)) && u !in st.reconciles
      ensures eligible && notReady && |states| == |acts| + 1 && Wakeup.SteadyRun(states, acts) ==>
        Wakeup.WakeupPending(st, u)
    {
      hide Execution, Wakeup.SteadyRun, Wakeup.WakeupPending;
      ghost var i := |acts|;
      Shape();
      Do(Finish(u));
      Shape();
      if Wakeup.SteadyRun(states, acts) && eligible && notReady {
        Wakeup.NoLostWakeup(states, acts, i, u);
      }
    }

    lemma Shape()
      requires Valid()
      ensures |states| == |acts| + 1 && st == states[|acts|]
    {
    }

    /** The goroutine: poll until an answer of true or an error, send the event, and leave the map. `finished`
        is false if the given answers or the schedule end before it does. */
    method PollAndTrigger(g: Gid, probes: seq<Probe>) returns (finished: bool)
      requires Valid() && GInPhase(st, g, Polling)
      modifies this
      ensures Valid() && old(acts) <= acts && old(states) <= states
      // polling ends exactly with an answer of true or an error
      ensures GInPhase(st, g, Polling) <==>
        forall i :: 0 <= i < |probes| ==> probes[i].NoClient? || probes[i].ListFailed?
      // then one event is sent for its cluster, and not before
      ensures var u := old(st).goroutines[g].uid;
        st.sent[u] == old(st).sent[u] + (if GInPhase(st, g, Polling) then 0 else 1)
      // and at its end it has left the map
      ensures finished ==> g !in st.goroutines && old(st).goroutines[g].uid !in st.triggers
      ensures !finished ==> GInPhase(st, g, Polling) || GInPhase(st, g, Sent)
    {
      hide Execution, Valid, Enabled, Apply, EndsPolling;
      var me := AGoroutine(g);
      ghost var u := st.goroutines[g].uid;
      var i := 0;
      var done := false;
      while i < |probes| && !done
        invariant 0 <= i <= |probes|
        invariant Valid() && old(acts) <= acts && old(states) <= states
        invariant GAt(g, u, if done then Sending else Polling) && st.sent[u] == old(st).sent[u]
        invariant forall k :: 0 <= k < (if done then i - 1 else i) ==> probes[k].NoClient? || probes[k].ListFailed?
        invariant done ==> i > 0 && !probes[i - 1].NoClient? && !probes[i - 1].ListFailed?
        decreases |probes| - i
      {
        Yield(me);
        PollOnce(g, u, probes[i]);
        PollingGoesOn(probes[i]);
        done := EndsPolling(probes[i]);
        i := i + 1;
      }
      if !done {
        return false;
      }
      Yield(me);
      SendEvent(g, u);
      finished := LeaveMap(g, u);
    }

    /** The deferred part: under the lock the goroutine takes its cluster off the map. */
    method LeaveMap(g: Gid, ghost u: UID) returns (finished: bool)
      requires Valid() && GAt(g, u, Sent)
      modifies this
      ensures Valid() && old(acts) <= acts && old(states) <= states
      ensures st.sent[u] == old(st).sent[u]
      ensures if finished then g !in st.goroutines && u !in st.triggers else GAt(g, u, Sent)
    {
      hide Execution, Valid, Enabled, Apply;
      var me := AGoroutine(g);
      var free := AwaitLock(me);
      if !free {
        return false;
      }
      GAcquire(g, u);
      Yield(me);
      RemoveEntry(g, u);
      Yield(me);
      GRelease(g, u);
      return true;
    }
  }
}
