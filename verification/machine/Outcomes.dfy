/** Convergence, idempotence and deletion for the whole system. */
module Outcomes {
  import opened Common
  import opened System
  import P = Protocol
  import Safety
  import Convergence

  /** The system after the reconcile of n in flight has run on alone to its end. */
  function SoloFrom(s: Sys, n: Name, o: P.Owners, env: Convergence.Environment, pending: nat): Sys
    requires n in s.fleet
    decreases Convergence.Rank(Slot(s, n)), pending
  {
    var v := Slot(s, n);
    if v.flight.None? then s
    else
      var a := OnMachine(n, Convergence.Answer(v, o, env, pending));
      SoloProgresses(s, n, o, env, pending);
      SoloFrom(Apply(s, a), n, o, env, Convergence.Rest(v, pending))
  }

  lemma SoloProgresses(s: Sys, n: Name, o: P.Owners, env: Convergence.Environment, pending: nat)
    requires n in s.fleet && Slot(s, n).flight.Some?
    ensures var v := Slot(s, n);
      var a := OnMachine(n, Convergence.Answer(v, o, env, pending));
      && Enabled(s, a)
      && n in Apply(s, a).fleet
      && Slot(Apply(s, a), n) == P.Step(n, s.fleet[n], ViewOf(s, s.fleet[n].cluster), v, a.act)
      && (Convergence.Rank(Slot(Apply(s, a), n)) < Convergence.Rank(v) ||
          (Convergence.Rank(Slot(Apply(s, a), n)) == Convergence.Rank(v) && Convergence.Rest(v, pending) < pending))
  {
    hide P.Step, P.Enabled, Convergence.Answer, Convergence.Rank, Convergence.Rest;
    Convergence.AnswerProgresses(n, s.fleet[n], ViewOf(s, s.fleet[n].cluster), Slot(s, n), o, env, pending);
    Frame(s, OnMachine(n, Convergence.Answer(Slot(s, n), o, env, pending)), n);
  }

  /** One undisturbed reconcile of n; it does nothing if there is no object to fetch. */
  function Solo(s: Sys, n: Name, o: P.Owners, env: Convergence.Environment): Sys
    requires n in s.fleet && Slot(s, n).flight.None?
  {
    if n !in s.objects then s
    else SoloFrom(Apply(s, OnMachine(n, P.Fetch)), n, o, env, env.pending)
  }

  lemma {:induction false} SoloFromIsDrive(s: Sys, n: Name, o: P.Owners, env: Convergence.Environment, pending: nat)
    requires n in s.fleet
    ensures SoloFrom(s, n, o, env, pending) ==
      WithSlot(s, n, Convergence.Drive(n, s.fleet[n], ViewOf(s, s.fleet[n].cluster), Slot(s, n), o, env, pending))
    decreases Convergence.Rank(Slot(s, n)), pending
  {
    hide P.Step, P.Enabled, Convergence.Answer, Convergence.Rank, Convergence.Rest, WithSlot;
    var v := Slot(s, n);
    if v.flight.Some? {
      SoloProgresses(s, n, o, env, pending);
      var a := OnMachine(n, Convergence.Answer(v, o, env, pending));
      var s', rest := Apply(s, a), Convergence.Rest(v, pending);
      var info, view := s.fleet[n], ViewOf(s, s.fleet[n].cluster);
      SoloFromIsDrive(s', n, o, env, rest);
      var v' := P.Step(n, info, view, v, a.act);
      assert s' == WithSlot(s, n, v');
      OverwriteSlot(s, n, v', Convergence.Drive(n, info, view, v', o, env, rest));
    } else {
      SameSlot(s, n);
    }
  }

  lemma OverwriteSlot(s: Sys, n: Name, v: P.Slot, w: P.Slot)
    ensures WithSlot(WithSlot(s, n, v), n, w) == WithSlot(s, n, w)
    ensures WithSlot(s, n, v).fleet == s.fleet
    ensures forall c :: ViewOf(WithSlot(s, n, v), c) == ViewOf(s, c)
  {
    PutTwice(s.objects, n, v.obj, w.obj);
    PutTwice(s.jobs, n, v.job, w.job);
    PutTwice(s.services, n, v.svc, w.svc);
    PutTwice(s.nodes, n, v.node, w.node);
    PutTwice(s.flights, n, v.flight, w.flight);
  }

  lemma PutTwice<V>(m: map<Name, V>, n: Name, a: Option<V>, b: Option<V>)
    ensures Put(Put(m, n, a), n, b) == Put(m, n, b)
  {
  }

  lemma SameSlot(s: Sys, n: Name)
    ensures WithSlot(s, n, Slot(s, n)) == s
  {
    assert s.objects == Put(s.objects, n, Get(s.objects, n));
    assert s.jobs == Put(s.jobs, n, Get(s.jobs, n));
    assert s.services == Put(s.services, n, Get(s.services, n));
    assert s.nodes == Put(s.nodes, n, Get(s.nodes, n));
    assert s.flights == Put(s.flights, n, Get(s.flights, n));
  }

  lemma FetchIsEnabled(s: Sys, n: Name)
    requires n in s.fleet && n in s.objects && Slot(s, n).flight.None?
    ensures Enabled(s, OnMachine(n, P.Fetch))
  {
  }

  lemma SoloIsReconcile(s: Sys, n: Name, o: P.Owners, env: Convergence.Environment)
    requires n in s.fleet && n in s.objects && Slot(s, n).flight.None?
    ensures Solo(s, n, o, env) ==
      WithSlot(s, n, Convergence.Reconcile(n, s.fleet[n], ViewOf(s, s.fleet[n].cluster), Slot(s, n), o, env))
  {
    hide P.Step, P.Enabled, Convergence.Drive, SoloFrom;
    var a := OnMachine(n, P.Fetch);
    FetchIsEnabled(s, n);
    Frame(s, a, n);
    SoloFromIsDrive(Apply(s, a), n, o, env, env.pending);
    var info, view := s.fleet[n], ViewOf(s, s.fleet[n].cluster);
    var v' := P.Step(n, info, view, Slot(s, n), P.Fetch);
    assert Apply(s, a) == WithSlot(s, n, v');
    OverwriteSlot(s, n, v', Convergence.Drive(n, info, view, v', o, env, env.pending));
  }

  lemma SlotOfWith(s: Sys, n: Name, v: P.Slot)
    ensures Slot(WithSlot(s, n, v), n) == v
  {
  }

  /** A solo reconcile is an ordinary run: its result is reached by steps of n alone. */
  lemma {:induction false} SoloFromIsRun(states: seq<Sys>, acts: seq<Action>, n: Name, o: P.Owners,
                                         env: Convergence.Environment, pending: nat)
      returns (states': seq<Sys>, acts': seq<Action>)
    requires Execution(states, acts) && n in states[|acts|].fleet
    ensures Execution(states', acts') && states <= states' && acts <= acts'
    ensures states'[|acts'|] == SoloFrom(states[|acts|], n, o, env, pending)
    decreases Convergence.Rank(Slot(states[|acts|], n)), pending
  {
    hide P.Step, P.Enabled, Convergence.Answer, Convergence.Rank, Convergence.Rest, WithSlot, Initial;
    var s := states[|acts|];
    var v := Slot(s, n);
    if v.flight.None? {
      states', acts' := states, acts;
    } else {
      SoloProgresses(s, n, o, env, pending);
      var a := OnMachine(n, Convergence.Answer(v, o, env, pending));
      ExtendExecution(states, acts, a);
      states', acts' := SoloFromIsRun(states + [Apply(s, a)], acts + [a], n, o, env, Convergence.Rest(v, pending));
    }
  }

  // -------------------------------------------------------------------------- results

  /** The situation in which a machine can be deployed. */
  predicate Deployable(s: Sys, n: Name, o: P.Owners, env: Convergence.Environment) {
    n in s.fleet && Convergence.Attempt(Slot(s, n), ViewOf(s, s.fleet[n].cluster), o, env)
  }

  /** The system after k solo reconciles of n. */
  function SoloTimes(s: Sys, n: Name, o: P.Owners, env: Convergence.Environment, k: nat): (s': Sys)
    requires n in s.fleet && Slot(s, n).flight.None?
    ensures n in s'.fleet && Slot(s', n).flight.None?
  {
    if k == 0 then s
    else
      var s1 := SoloTimes(s, n, o, env, k - 1);
      SoloEnds(s1, n, o, env);
      Solo(s1, n, o, env)
  }

  lemma SoloEnds(s: Sys, n: Name, o: P.Owners, env: Convergence.Environment)
    requires n in s.fleet && Slot(s, n).flight.None?
    ensures Solo(s, n, o, env).fleet == s.fleet && Slot(Solo(s, n, o, env), n).flight.None?
  {
    hide P.Step, P.Enabled, Convergence.Answer, Convergence.Rank, Convergence.Rest, SoloFrom, Convergence.Drive;
    if n in s.objects {
      SoloIsReconcile(s, n, o, env);
      var info, view := s.fleet[n], ViewOf(s, s.fleet[n].cluster);
      SlotOfWith(s, n, Convergence.Reconcile(n, info, view, Slot(s, n), o, env));
      FetchIsEnabled(s, n);
      DriveEnds(n, info, view, P.Step(n, info, view, Slot(s, n), P.Fetch), o, env, env.pending);
    }
  }

  lemma {:induction false} DriveEnds(n: Name, info: P.MachineInfo, view: P.ClusterView, v: P.Slot, o: P.Owners,
                                     env: Convergence.Environment, pending: nat)
    ensures Convergence.Drive(n, info, view, v, o, env, pending).flight.None?
    decreases Convergence.Rank(v), pending
  {
    hide P.Step, P.Enabled, Convergence.Answer, Convergence.Rank, Convergence.Rest;
    if v.flight.Some? {
      Convergence.AnswerProgresses(n, info, view, v, o, env, pending);
      var v' := P.Step(n, info, view, v, Convergence.Answer(v, o, env, pending));
      DriveEnds(n, info, view, v', o, env, Convergence.Rest(v, pending));
    }
  }

  /** One solo reconcile of a deployable machine: it has its finalizer and is as deployable
      afterwards; if it had its finalizer before, it now agrees, and if it agreed, nothing has changed. */
  lemma SoloSettles(s: Sys, n: Name, o: P.Owners, env: Convergence.Environment)
    requires Inv(s) && Deployable(s, n, o, env) && Convergence.Favourable(env, n)
    ensures var s' := Solo(s, n, o, env);
      && s'.fleet == s.fleet
      && (s.objects[n].finalizer ==> Convergence.Agreed(n, s.fleet[n], Slot(s', n), env))
      && Inv(s') && Deployable(s', n, o, env) && s'.objects[n].finalizer
      && (Convergence.Agreed(n, s.fleet[n], Slot(s, n), env) ==> s' == s)
  {
    hide P.Step, P.Enabled, P.JobFor, P.ServiceFor, Safety.SlotInv, Inv, Solo, SoloFrom;
    hide Convergence.Agreed, Convergence.Drive, Convergence.Reconcile, Convergence.Favourable;
    var info, view, v := s.fleet[n], ViewOf(s, s.fleet[n].cluster), Slot(s, n);
    SlotInvOf(s, n);
    SoloIsReconcile(s, n, o, env);
    var v' := Convergence.Reconcile(n, info, view, v, o, env);
    SlotOfWith(s, n, v');
    SameSlot(s, n);
    if s.objects[n].finalizer {
      Convergence.OneReconcileSettles(n, info, view, v, o, env);
    } else {
      Convergence.FirstReconcileAddsFinalizer(n, info, view, v, o, env);
    }
    OverwriteSlot(s, n, v', v');
    SoloKeepsInv(s, n, o, env);
    AgreedIsDeployable(n, info, v, env);
    AgreedIsDeployable(n, info, v', env);
  }

  lemma AgreedIsDeployable(n: Name, info: P.MachineInfo, v: P.Slot, env: Convergence.Environment)
    ensures Convergence.Agreed(n, info, v, env) ==>
      v.flight.None? && v.node.Some? && v.obj.Some? && v.obj.value.finalizer && !v.obj.value.deleting
  {
  }

  lemma SoloKeepsInv(s: Sys, n: Name, o: P.Owners, env: Convergence.Environment)
    requires Inv(s) && n in s.fleet && Slot(s, n).flight.None?
    ensures Inv(Solo(s, n, o, env))
  {
    hide P.Step, P.Enabled, Inv, SoloFrom;
    if n in s.objects {
      FetchIsEnabled(s, n);
      StepKeepsInv(s, OnMachine(n, P.Fetch));
      Frame(s, OnMachine(n, P.Fetch), n);
      SoloFromKeepsInv(Apply(s, OnMachine(n, P.Fetch)), n, o, env, env.pending);
    }
  }

  lemma {:induction false} SoloFromKeepsInv(s: Sys, n: Name, o: P.Owners, env: Convergence.Environment, pending: nat)
    requires Inv(s) && n in s.fleet
    ensures Inv(SoloFrom(s, n, o, env, pending))
    decreases Convergence.Rank(Slot(s, n)), pending
  {
    hide P.Step, P.Enabled, Inv, Convergence.Answer, Convergence.Rank, Convergence.Rest;
    if Slot(s, n).flight.Some? {
      SoloProgresses(s, n, o, env, pending);
      var a := OnMachine(n, Convergence.Answer(Slot(s, n), o, env, pending));
      StepKeepsInv(s, a);
      SoloFromKeepsInv(Apply(s, a), n, o, env, Convergence.Rest(Slot(s, n), pending));
    }
  }

  /** From any reachable state in which n can be deployed, two reconciles reach agreement,
      and any number of further ones leave the whole system as it is. */
  lemma {:induction false} Converges(states: seq<Sys>, acts: seq<Action>, i: nat, n: Name, o: P.Owners,
                                     env: Convergence.Environment, k: nat)
    requires Execution(states, acts) && i < |states|
    requires Deployable(states[i], n, o, env) && Convergence.Favourable(env, n)
    ensures Convergence.Agreed(n, states[i].fleet[n], Slot(SoloTimes(states[i], n, o, env, 2), n), env)
    ensures SoloTimes(states[i], n, o, env, 2 + k) == SoloTimes(states[i], n, o, env, 2)
  {
    hide Convergence.Agreed, Convergence.Favourable, Solo, Inv;
    var s := states[i];
    Reachable(states, acts, i);
    var s1 := SoloTimes(s, n, o, env, 1);
    assert SoloTimes(s, n, o, env, 0) == s && s1 == Solo(s, n, o, env);
    SoloSettles(s, n, o, env);
    var s2 := SoloTimes(s, n, o, env, 2);
    assert s2 == Solo(s1, n, o, env);
    SoloSettles(s1, n, o, env);
    SoloSettles(s2, n, o, env);
    if k > 0 {
      Converges(states, acts, i, n, o, env, k - 1);
      assert SoloTimes(s, n, o, env, 2 + k) == Solo(s2, n, o, env);
    }
  }

  /** From every reachable deleting state one error-free reconcile leaves no object, no job and no
      Consul entry, exactly when the owners and the NomadCluster can be read; otherwise the
      whole system stays as it is. */
  lemma DeletionCompletesIff(states: seq<Sys>, acts: seq<Action>, i: nat, n: Name, o: P.Owners,
                             env: Convergence.Environment)
    requires Execution(states, acts) && i < |states| && n in states[i].fleet
    requires n in states[i].objects && states[i].objects[n].deleting && n !in states[i].flights
    ensures var s, s' := states[i], Solo(states[i], n, o, env);
      && (n !in s'.objects && n !in s'.jobs && n !in s'.services <==>
            o.Found? && s.fleet[n].cluster in s.nomadClusters)
      && (!(o.Found? && s.fleet[n].cluster in s.nomadClusters) ==> s' == s)
  {
    hide P.Step, P.Enabled, Convergence.Drive, Convergence.Reconcile, Inv, Solo, Safety.SlotInv, WithSlot;
    var s := states[i];
    Reachable(states, acts, i);
    SlotInvOf(s, n);
    SoloIsReconcile(s, n, o, env);
    var info, view, v := s.fleet[n], ViewOf(s, s.fleet[n].cluster), Slot(s, n);
    Convergence.DeletingReconcile(n, info, view, v, o, env);
    SlotOfWith(s, n, Convergence.Reconcile(n, info, view, v, o, env));
    SameSlot(s, n);
  }
}
