/** The whole system: any number of machines and clusters over shared stores, its steps,
    its executions, and the invariant of every reachable state. */
module System {
  import opened Common
  import opened Types
  import P = Protocol
  import C = ClusterProtocol
  import Safety

  /** Nomad jobs and Consul services are keyed by the machine's name alone. */
  datatype Sys = Sys(
    fleet: map<Name, P.MachineInfo>,
    clusters: map<Name, C.ClusterInfo>,
    objects: map<Name, NomadMachine>,
    jobs: map<Name, Job>,
    services: map<Name, Service>,
    nodes: map<Name, string>,
    flights: map<Name, P.Flight>,
    nomadClusters: map<Name, NomadCluster>,
    coreSawReady: set<Name>,
    infraReady: set<Name>,
    clusterFlights: map<Name, C.ClusterFlight>)

  function Get<V>(m: map<Name, V>, n: Name): Option<V> {
    if n in m then Some(m[n]) else None
  }

  function Put<V>(m: map<Name, V>, n: Name, v: Option<V>): map<Name, V> {
    if v.Some? then m[n := v.value] else m - {n}
  }

  function Mark(m: set<Name>, n: Name, present: bool): set<Name> {
    if present then m + {n} else m - {n}
  }

  function Slot(s: Sys, n: Name): P.Slot {
    P.Slot(Get(s.objects, n), Get(s.jobs, n), Get(s.services, n), Get(s.nodes, n), Get(s.flights, n))
  }

  function WithSlot(s: Sys, n: Name, v: P.Slot): Sys {
    s.(objects := Put(s.objects, n, v.obj),
       jobs := Put(s.jobs, n, v.job),
       services := Put(s.services, n, v.svc),
       nodes := Put(s.nodes, n, v.node),
       flights := Put(s.flights, n, v.flight))
  }

  function ClusterSlot(s: Sys, c: Name): C.ClusterSlot {
    C.ClusterSlot(Get(s.nomadClusters, c), c in s.coreSawReady, c in s.infraReady, Get(s.clusterFlights, c))
  }

  function WithClusterSlot(s: Sys, c: Name, v: C.ClusterSlot): Sys {
    s.(nomadClusters := Put(s.nomadClusters, c, v.obj),
       coreSawReady := Mark(s.coreSawReady, c, v.coreSawReady),
       infraReady := Mark(s.infraReady, c, v.infraReady),
       clusterFlights := Put(s.clusterFlights, c, v.flight))
  }

  function ViewOf(s: Sys, c: Name): P.ClusterView {
    P.ClusterView(c in s.nomadClusters, c in s.infraReady)
  }

  // -------------------------------------------------------------------------- steps

  datatype Action =
    | OnMachine(n: Name, act: P.Act)
    | OnCluster(c: Name, clusterAct: C.ClusterAct)
    | Crash

  predicate Enabled(s: Sys, a: Action) {
    match a
    case OnMachine(n, act) => n in s.fleet && P.Enabled(Slot(s, n), act)
    case OnCluster(c, act) => c in s.clusters && C.Enabled(ClusterSlot(s, c), act)
    case Crash => true
  }

  function Apply(s: Sys, a: Action): Sys
    requires Enabled(s, a)
  {
    match a
    case OnMachine(n, act) =>
      WithSlot(s, n, P.Step(n, s.fleet[n], ViewOf(s, s.fleet[n].cluster), Slot(s, n), act))
    case OnCluster(c, act) =>
      WithClusterSlot(s, c, C.Step(c, s.clusters[c], ClusterSlot(s, c), act))
    case Crash => s.(flights := map[], clusterFlights := map[])
  }

  ghost predicate Initial(s: Sys) {
    && s.objects == map[] && s.jobs == map[] && s.services == map[] && s.nodes == map[] && s.flights == map[]
    && s.nomadClusters == map[] && s.coreSawReady == {} && s.infraReady == {} && s.clusterFlights == map[]
  }

  /** The states a sequence of steps passes through, first to last. */
  ghost predicate Execution(states: seq<Sys>, acts: seq<Action>) {
    && |states| == |acts| + 1
    && Initial(states[0])
    && forall i :: 0 <= i < |acts| ==> StepAt(states, acts, i)
  }

  ghost predicate StepAt(states: seq<Sys>, acts: seq<Action>, i: int)
    requires |states| == |acts| + 1 && 0 <= i < |acts|
  {
    Enabled(states[i], acts[i]) && states[i + 1] == Apply(states[i], acts[i])
  }

  /** An execution can go on with any enabled step. */
  lemma ExtendExecution(states: seq<Sys>, acts: seq<Action>, a: Action)
    requires Execution(states, acts) && Enabled(states[|acts|], a)
    ensures Execution(states + [Apply(states[|acts|], a)], acts + [a])
  {
    hide Enabled, Apply, Initial;
    var states', acts' := states + [Apply(states[|acts|], a)], acts + [a];
    forall i | 0 <= i < |acts'|
      ensures StepAt(states', acts', i)
    {
      if i < |acts| {
        assert StepAt(states, acts, i);
      }
    }
  }

  // ---------------------------------------------------------------------- the invariant

  ghost predicate MachineInv(s: Sys, n: Name) {
    if n in s.fleet then Safety.SlotInv(n, s.fleet[n], Slot(s, n)) else Slot(s, n) == P.EMPTY_SLOT
  }

  ghost predicate ClusterInv(s: Sys, c: Name) {
    if c in s.clusters then C.ClusterInv(c, s.clusters[c], ClusterSlot(s, c)) else ClusterSlot(s, c) == C.EMPTY_SLOT
  }

  ghost predicate Inv(s: Sys) {
    && (forall n :: MachineInv(s, n))
    && (forall c :: ClusterInv(s, c))
  }

  /** A step on one machine leaves every other machine and every cluster alone, and conversely. */
  lemma Frame(s: Sys, a: Action, m: Name)
    requires Enabled(s, a) && !a.Crash?
    ensures Apply(s, a).fleet == s.fleet && Apply(s, a).clusters == s.clusters
    ensures !(a.OnMachine? && a.n == m) ==> Slot(Apply(s, a), m) == Slot(s, m)
    ensures a.OnMachine? ==> ClusterSlot(Apply(s, a), m) == ClusterSlot(s, m)
    ensures a.OnCluster? && a.c != m ==> ClusterSlot(Apply(s, a), m) == ClusterSlot(s, m)
    ensures a.OnMachine? && a.n == m ==>
      Slot(Apply(s, a), m) == P.Step(m, s.fleet[m], ViewOf(s, s.fleet[m].cluster), Slot(s, m), a.act)
    ensures a.OnCluster? && a.c == m ==>
      ClusterSlot(Apply(s, a), m) == C.Step(m, s.clusters[m], ClusterSlot(s, m), a.clusterAct)
  {
    hide P.Step, P.Enabled, C.Step, C.Enabled, WithSlot, WithClusterSlot;
    match a
    case OnMachine(n, act) =>
      WithSlotFrame(s, n, P.Step(n, s.fleet[n], ViewOf(s, s.fleet[n].cluster), Slot(s, n), act), m);
    case OnCluster(c, act) =>
      WithClusterSlotFrame(s, c, C.Step(c, s.clusters[c], ClusterSlot(s, c), act), m);
  }

  lemma GetPut<V>(m: map<Name, V>, n: Name, v: Option<V>, k: Name)
    ensures Get(Put(m, n, v), k) == if k == n then v else Get(m, k)
  {
  }

  lemma WithSlotFrame(s: Sys, n: Name, v: P.Slot, m: Name)
    ensures Slot(WithSlot(s, n, v), m) == if m == n then v else Slot(s, m)
    ensures ClusterSlot(WithSlot(s, n, v), m) == ClusterSlot(s, m)
    ensures WithSlot(s, n, v).fleet == s.fleet && WithSlot(s, n, v).clusters == s.clusters
  {
    GetPut(s.objects, n, v.obj, m);
    GetPut(s.jobs, n, v.job, m);
    GetPut(s.services, n, v.svc, m);
    GetPut(s.nodes, n, v.node, m);
    GetPut(s.flights, n, v.flight, m);
    hide Get, Put;
  }

  lemma WithClusterSlotFrame(s: Sys, c: Name, v: C.ClusterSlot, m: Name)
    ensures ClusterSlot(WithClusterSlot(s, c, v), m) == if m == c then v else ClusterSlot(s, m)
    ensures Slot(WithClusterSlot(s, c, v), m) == Slot(s, m)
    ensures WithClusterSlot(s, c, v).fleet == s.fleet && WithClusterSlot(s, c, v).clusters == s.clusters
  {
    GetPut(s.nomadClusters, c, v.obj, m);
    GetPut(s.clusterFlights, c, v.flight, m);
    hide Get, Put;
  }

  lemma StepKeepsInv(s: Sys, a: Action)
    requires Inv(s) && Enabled(s, a)
    ensures Inv(Apply(s, a))
  {
    hide Safety.SlotInv, C.ClusterInv, P.Step, P.Enabled, C.Step, C.Enabled;
    var s' := Apply(s, a);
    forall n
      ensures MachineInv(s', n)
    {
      assert MachineInv(s, n);
      if a.Crash? {
        assert Slot(s', n) == Slot(s, n).(flight := None);
        if n in s.fleet {
          Safety.CrashKeepsInvariant(n, s.fleet[n], Slot(s, n));
        }
      } else {
        Frame(s, a, n);
        if a.OnMachine? && a.n == n {
          Safety.StepKeepsInvariant(n, s.fleet[n], ViewOf(s, s.fleet[n].cluster), Slot(s, n), a.act);
        }
      }
    }
    forall c
      ensures ClusterInv(s', c)
    {
      assert ClusterInv(s, c);
      if a.Crash? {
        assert ClusterSlot(s', c) == ClusterSlot(s, c).(flight := None);
        if c in s.clusters {
          CrashKeepsClusterInv(c, s.clusters[c], ClusterSlot(s, c));
        }
      } else {
        Frame(s, a, c);
        if a.OnCluster? && a.c == c {
          C.StepKeepsClusterInv(c, s.clusters[c], ClusterSlot(s, c), a.clusterAct);
        }
      }
    }
  }

  lemma SlotInvOf(s: Sys, n: Name)
    requires Inv(s) && n in s.fleet
    ensures Safety.SlotInv(n, s.fleet[n], Slot(s, n))
  {
    hide Safety.SlotInv;
    assert MachineInv(s, n);
  }

  lemma CrashKeepsClusterInv(c: Name, info: C.ClusterInfo, v: C.ClusterSlot)
    requires C.ClusterInv(c, info, v)
    ensures C.ClusterInv(c, info, v.(flight := None))
  {
  }

  lemma {:induction false} Reachable(states: seq<Sys>, acts: seq<Action>, i: nat)
    requires Execution(states, acts) && i < |states|
    ensures Inv(states[i]) && states[i].fleet == states[0].fleet && states[i].clusters == states[0].clusters
  {
    if i > 0 {
      Reachable(states, acts, i - 1);
      assert StepAt(states, acts, i - 1);
      StepKeepsInv(states[i - 1], acts[i - 1]);
      if !acts[i - 1].Crash? {
        Frame(states[i - 1], acts[i - 1], "");
      }
    } else {
      InitialInv(states[0]);
    }
  }

  lemma InitialInv(s: Sys)
    requires Initial(s)
    ensures Inv(s)
  {
    assert forall n :: Slot(s, n) == P.EMPTY_SLOT;
    assert forall c :: ClusterSlot(s, c) == C.EMPTY_SLOT;
  }
}
