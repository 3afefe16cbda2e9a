/** The shared stores as the controllers meet them: every call is one step of the system,
    and before any call other actors may take any number of steps of their own. */
module World {
  import opened Common
  import opened System
  import P = Protocol
  import C = ClusterProtocol

  class Stores {
    var sys: Sys
    /** What the other actors do before each of our calls. */
    var schedule: seq<seq<Action>>
    ghost var states: seq<Sys>
    ghost var acts: seq<Action>

    /** The stores are in a state that an execution from an empty system has reached. */
    ghost predicate Valid()
      reads this
    {
      Execution(states, acts) && sys == states[|acts|]
    }

    constructor (fleet: map<Name, P.MachineInfo>, clusters: map<Name, C.ClusterInfo>, schedule: seq<seq<Action>>)
      ensures Valid() && acts == [] && sys.fleet == fleet && sys.clusters == clusters
    {
      var empty := Sys(fleet, clusters, map[], map[], map[], map[], map[], map[], {}, {}, map[]);
      this.sys := empty;
      this.schedule := schedule;
      this.states := [empty];
      this.acts := [];
    }

    /** So every invariant of the system holds of them. */
    lemma Reached()
      requires Valid()
      ensures Inv(sys)
    {
      Reachable(states, acts, |acts|);
    }

    lemma Shape()
      requires Valid()
      ensures |states| == |acts| + 1 && sys == states[|acts|]
    {
    }

    ghost method Record(a: Action)
      requires Execution(states, acts) && Enabled(states[|acts|], a) && sys == Apply(states[|acts|], a)
      modifies this`states, this`acts
      ensures Valid() && acts == old(acts) + [a] && states == old(states) + [sys]
    {
      ExtendExecution(states, acts, a);
      states, acts := states + [sys], acts + [a];
    }

    method Do(a: Action)
      requires Valid() && Enabled(sys, a)
      modifies this`sys, this`states, this`acts
      ensures Valid() && sys == Apply(old(sys), a)
      ensures acts == old(acts) + [a] && states == old(states) + [sys]
    {
      sys := Apply(sys, a);
      Record(a);
    }

    /** One step of machine n's reconcile. */
    method Call(n: Name, act: P.Act)
      requires Valid() && n in sys.fleet && P.Enabled(Slot(sys, n), act)
      modifies this`sys, this`states, this`acts
      ensures Valid() && sys == Apply(old(sys), OnMachine(n, act))
      ensures acts == old(acts) + [OnMachine(n, act)] && states == old(states) + [sys]
      ensures |states| == |acts| + 1 && states[|acts| - 1] == old(sys)
      ensures sys.fleet == old(sys).fleet
      ensures Slot(sys, n) ==
        P.Step(n, old(sys).fleet[n], ViewOf(old(sys), old(sys).fleet[n].cluster), old(Slot(sys, n)), act)
    {
      hide P.Step, P.Enabled, Execution, WithSlot;
      Frame(sys, OnMachine(n, act), n);
      Shape();
      Do(OnMachine(n, act));
    }

    /** One step of cluster c's reconcile. */
    method ClusterCall(c: Name, act: C.ClusterAct)
      requires Valid() && c in sys.clusters && C.Enabled(ClusterSlot(sys, c), act)
      modifies this`sys, this`states, this`acts
      ensures Valid() && sys == Apply(old(sys), OnCluster(c, act))
      ensures acts == old(acts) + [OnCluster(c, act)] && states == old(states) + [sys]
      ensures |states| == |acts| + 1 && states[|acts| - 1] == old(sys)
      ensures sys.clusters == old(sys).clusters
      ensures ClusterSlot(sys, c) == C.Step(c, old(sys).clusters[c], old(ClusterSlot(sys, c)), act)
    {
      hide C.Step, C.Enabled, Execution, WithClusterSlot;
      Frame(sys, OnCluster(c, act), c);
      Shape();
      Do(OnCluster(c, act));
    }

    /** The other actors' turn: users, the core controller, Nomad's nodes, and the reconciles of
        all other machines and clusters. Only the reconcile of n itself stands still. */
    method Yield(n: Name)
      requires Valid()
      modifies this
      ensures Valid() && old(acts) <= acts && old(states) <= states
      ensures sys == if old(schedule) == [] then old(sys) else Turn(old(sys), old(schedule)[0], n)
      ensures schedule == if old(schedule) == [] then [] else old(schedule)[1..]
      ensures OwnAffairs(old(sys), sys, n)
    {
      hide Execution, Enabled, Apply, Turn;
      EmptyTurn(sys, n);
      if schedule != [] {
        var turn := schedule[0];
        schedule := schedule[1..];
        var i := 0;
        while i < |turn|
          invariant 0 <= i <= |turn| && schedule == old(schedule)[1..]
          invariant Valid() && old(acts) <= acts && old(states) <= states
          invariant sys == Turn(old(sys), turn[..i], n) && OwnAffairs(old(sys), sys, n)
        {
          TurnStep(old(sys), turn, i, n);
          if Enabled(sys, turn[i]) && !turn[i].Crash? && !OfReconcile(turn[i], n) {
            LeavesFlightAlone(sys, turn[i], n);
            Do(turn[i]);
          }
          i := i + 1;
        }
        assert turn[..i] == turn;
      }
    }

    /** As Yield, for the reconcile of cluster c. */
    method YieldCluster(c: Name)
      requires Valid()
      modifies this
      ensures Valid() && old(acts) <= acts && old(states) <= states
      ensures sys == if old(schedule) == [] then old(sys) else ClusterTurn(old(sys), old(schedule)[0], c)
      ensures schedule == if old(schedule) == [] then [] else old(schedule)[1..]
      ensures sys.clusters == old(sys).clusters && Get(sys.clusterFlights, c) == old(Get(sys.clusterFlights, c))
    {
      hide Execution, Enabled, Apply, ClusterTurn;
      EmptyTurn(sys, c);
      if schedule != [] {
        var turn := schedule[0];
        schedule := schedule[1..];
        var i := 0;
        while i < |turn|
          invariant 0 <= i <= |turn| && schedule == old(schedule)[1..]
          invariant Valid() && old(acts) <= acts && old(states) <= states
          invariant sys == ClusterTurn(old(sys), turn[..i], c)
          invariant sys.clusters == old(sys).clusters && Get(sys.clusterFlights, c) == old(Get(sys.clusterFlights, c))
        {
          ClusterTurnStep(old(sys), turn, i, c);
          if Enabled(sys, turn[i]) && !turn[i].Crash? && !OfClusterReconcile(turn[i], c) {
            LeavesClusterFlightAlone(sys, turn[i], c);
            Do(turn[i]);
          }
          i := i + 1;
        }
        assert turn[..i] == turn;
      }
    }
  }

  /** A step of the reconcile of n, rather than of the machine's environment. */
  predicate OfReconcile(a: Action, n: Name) {
    a.OnMachine? && a.n == n && !(a.act.Create? || a.act.UserDelete? || a.act.NodeJoins?)
  }

  predicate OfClusterReconcile(a: Action, c: Name) {
    && a.OnCluster? && a.c == c
    && !(a.clusterAct.Create? || a.clusterAct.UserDelete? || a.clusterAct.CoreReads? || a.clusterAct.CoreReports?)
  }

  /** A turn of the others: each of its steps that can happen does, in order, but none of n's own. */
  function Turn(s: Sys, turn: seq<Action>, n: Name): Sys {
    if turn == [] then s
    else
      var s', a := Turn(s, turn[..|turn| - 1], n), turn[|turn| - 1];
      if Enabled(s', a) && !a.Crash? && !OfReconcile(a, n) then Apply(s', a) else s'
  }

  function ClusterTurn(s: Sys, turn: seq<Action>, c: Name): Sys {
    if turn == [] then s
    else
      var s', a := ClusterTurn(s, turn[..|turn| - 1], c), turn[|turn| - 1];
      if Enabled(s', a) && !a.Crash? && !OfClusterReconcile(a, c) then Apply(s', a) else s'
  }

  lemma EmptyTurn(s: Sys, n: Name)
    ensures Turn(s, [], n) == s && ClusterTurn(s, [], n) == s
  {
  }

  lemma TurnStep(s: Sys, turn: seq<Action>, i: nat, n: Name)
    requires i < |turn|
    ensures var s' := Turn(s, turn[..i], n);
      Turn(s, turn[..i + 1], n) ==
        if Enabled(s', turn[i]) && !turn[i].Crash? && !OfReconcile(turn[i], n) then Apply(s', turn[i]) else s'
  {
    hide Enabled, Apply, OfReconcile;
    assert turn[..i + 1][..i] == turn[..i];
  }

  lemma ClusterTurnStep(s: Sys, turn: seq<Action>, i: nat, c: Name)
    requires i < |turn|
    ensures var s' := ClusterTurn(s, turn[..i], c);
      ClusterTurn(s, turn[..i + 1], c) ==
        if Enabled(s', turn[i]) && !turn[i].Crash? && !OfClusterReconcile(turn[i], c) then Apply(s', turn[i]) else s'
  {
    hide Enabled, Apply, OfClusterReconcile;
    assert turn[..i + 1][..i] == turn[..i];
  }

  /** What only the reconcile of n changes: itself, n's job and n's Consul entry. */
  ghost predicate OwnAffairs(s: Sys, s': Sys, n: Name) {
    && s'.fleet == s.fleet && Get(s'.flights, n) == Get(s.flights, n)
    && Get(s'.jobs, n) == Get(s.jobs, n) && Get(s'.services, n) == Get(s.services, n)
  }

  lemma LeavesFlightAlone(s: Sys, a: Action, n: Name)
    requires Enabled(s, a) && !a.Crash? && !OfReconcile(a, n)
    ensures OwnAffairs(s, Apply(s, a), n)
  {
    hide WithSlot, WithClusterSlot, P.JobFor, P.ServiceFor;
    Frame(s, a, n);
    SlotParts(s, n);
    SlotParts(Apply(s, a), n);
  }

  lemma SlotParts(s: Sys, n: Name)
    ensures Slot(s, n).flight == Get(s.flights, n) && Slot(s, n).job == Get(s.jobs, n)
    ensures Slot(s, n).obj == Get(s.objects, n) && Slot(s, n).svc == Get(s.services, n)
  {
  }

  lemma LeavesClusterFlightAlone(s: Sys, a: Action, c: Name)
    requires Enabled(s, a) && !a.Crash? && !OfClusterReconcile(a, c)
    ensures Get(Apply(s, a).clusterFlights, c) == Get(s.clusterFlights, c) && Apply(s, a).clusters == s.clusters
  {
    Frame(s, a, c);
    assert Get(Apply(s, a).clusterFlights, c) == ClusterSlot(Apply(s, a), c).flight;
    assert Get(s.clusterFlights, c) == ClusterSlot(s, c).flight;
  }
}
