/** Where the system falls short of its purpose, each with a run that shows it. */
module Shortfalls {
  import opened Common
  import opened Types
  import opened System
  import P = Protocol
  import C = ClusterProtocol
  import Convergence
  import Outcomes
  import Runs
  import Safety

  // ----------------------------------------------------------------------- longer runs

  /** A run that goes on from an earlier one. */
  ghost predicate Extends(states: seq<Sys>, acts: seq<Action>, states': seq<Sys>, acts': seq<Action>) {
    Execution(states', acts') && states <= states' && acts <= acts'
  }

  ghost function Last(states: seq<Sys>): Sys
    requires |states| > 0
  {
    states[|states| - 1]
  }

  /** One more step of cluster c; it touches no machine. */
  lemma ThenCluster(states: seq<Sys>, acts: seq<Action>, c: Name, act: C.ClusterAct)
      returns (states': seq<Sys>, acts': seq<Action>)
    requires Execution(states, acts) && c in Last(states).clusters && C.Enabled(ClusterSlot(Last(states), c), act)
    ensures Extends(states, acts, states', acts') && |acts'| == |acts| + 1
    ensures var s, s' := Last(states), Last(states');
      && ClusterSlot(s', c) == C.Step(c, s.clusters[c], ClusterSlot(s, c), act)
      && SameMachines(s, s')
  {
    hide C.Step, C.Enabled, Initial;
    var a := OnCluster(c, act);
    ExtendExecution(states, acts, a);
    states', acts' := states + [Apply(Last(states), a)], acts + [a];
    Frame(Last(states), a, c);
  }

  ghost predicate SameMachines(s: Sys, s': Sys) {
    && s'.fleet == s.fleet && s'.clusters == s.clusters
    && s'.objects == s.objects && s'.jobs == s.jobs && s'.services == s.services
    && s'.nodes == s.nodes && s'.flights == s.flights
  }

  /** One more step of machine n; it touches no cluster. */
  lemma ThenMachine(states: seq<Sys>, acts: seq<Action>, n: Name, act: P.Act)
      returns (states': seq<Sys>, acts': seq<Action>)
    requires Execution(states, acts) && n in Last(states).fleet && P.Enabled(Slot(Last(states), n), act)
    ensures Extends(states, acts, states', acts')
    ensures var s, s' := Last(states), Last(states');
      && s' == Apply(s, OnMachine(n, act)) && s'.fleet == s.fleet && s'.clusters == s.clusters
      && Slot(s', n) == P.Step(n, s.fleet[n], ViewOf(s, s.fleet[n].cluster), Slot(s, n), act)
      && forall c :: ClusterSlot(s', c) == ClusterSlot(s, c)
  {
    hide P.Step, P.Enabled, Initial, WithSlot;
    var s, a := Last(states), OnMachine(n, act);
    ExtendExecution(states, acts, a);
    states', acts' := states + [Apply(s, a)], acts + [a];
    Frame(s, a, n);
    forall c
      ensures ClusterSlot(Apply(s, a), c) == ClusterSlot(s, c)
    {
      Frame(s, a, c);
    }
  }

  /** One more reconcile of machine n, undisturbed. */
  lemma ThenSolo(states: seq<Sys>, acts: seq<Action>, n: Name, o: P.Owners, env: Convergence.Environment)
      returns (states': seq<Sys>, acts': seq<Action>)
    requires Execution(states, acts) && n in Last(states).fleet && n in Last(states).objects
    requires Slot(Last(states), n).flight.None?
    ensures Extends(states, acts, states', acts')
    ensures Last(states') == Outcomes.Solo(Last(states), n, o, env)
    ensures Last(states').clusters == Last(states).clusters
    ensures forall c :: ClusterSlot(Last(states'), c) == ClusterSlot(Last(states), c)
  {
    hide P.Step, P.Enabled, Convergence.Reconcile, Outcomes.SoloFrom, Initial, WithSlot;
    var s := Last(states);
    Outcomes.FetchIsEnabled(s, n);
    states', acts' := ThenMachine(states, acts, n, P.Fetch);
    states', acts' := Outcomes.SoloFromIsRun(states', acts', n, o, env, env.pending);
    Outcomes.SoloIsReconcile(s, n, o, env);
    var v := Convergence.Reconcile(n, s.fleet[n], ViewOf(s, s.fleet[n].cluster), Slot(s, n), o, env);
    WithSlotFrame(s, n, v, n);
    forall c
      ensures ClusterSlot(Last(states'), c) == ClusterSlot(s, c)
    {
      WithSlotFrame(s, n, v, c);
    }
  }

  // ------------------------------------------------------------------ a deployed machine

  const ADOPTED := NEW_CLUSTER.(finalizer := true)

  function PublishedSlot(c: Name, info: C.ClusterInfo): C.ClusterSlot {
    C.ClusterSlot(Some(C.Checked(C.Publish(ADOPTED, c, info), false)), true, true, None)
  }

  /** A NomadCluster gets its finalizer. */
  lemma Adopted(fleet: map<Name, P.MachineInfo>, clusters: map<Name, C.ClusterInfo>, c: Name)
      returns (states: seq<Sys>, acts: seq<Action>)
    requires c in clusters
    ensures Execution(states, acts) && ClusterSlot(Last(states), c) == C.ClusterSlot(Some(ADOPTED), false, false, None)
    ensures SameMachines(Sys(fleet, clusters, map[], map[], map[], map[], map[], map[], {}, {}, map[]), Last(states))
  {
    hide C.DnsName, C.ApiServerPort;
    states, acts := [Sys(fleet, clusters, map[], map[], map[], map[], map[], map[], {}, {}, map[])], [];
    states, acts := ThenCluster(states, acts, c, C.Create);
    states, acts := ThenCluster(states, acts, c, C.Fetch(true));
    states, acts := ThenCluster(states, acts, c, C.Closed(true, true));
  }

  /** It is published, and the core controller reports the infrastructure ready. */
  lemma PublishedRun(fleet: map<Name, P.MachineInfo>, clusters: map<Name, C.ClusterInfo>, c: Name)
      returns (states: seq<Sys>, acts: seq<Action>)
    requires c in clusters
    ensures Execution(states, acts) && ClusterSlot(Last(states), c) == PublishedSlot(c, clusters[c])
    ensures SameMachines(Sys(fleet, clusters, map[], map[], map[], map[], map[], map[], {}, {}, map[]), Last(states))
  {
    hide C.DnsName, C.ApiServerPort, Execution;
    states, acts := Adopted(fleet, clusters, c);
    states, acts := ThenCluster(states, acts, c, C.Fetch(true));
    states, acts := ThenCluster(states, acts, c, C.Probed(false));
    states, acts := ThenCluster(states, acts, c, C.Closed(true, true));
    states, acts := ThenCluster(states, acts, c, C.CoreReads);
    states, acts := ThenCluster(states, acts, c, C.CoreReports(true));
  }

  const OWNERS := P.Found(P.Data(""), Some("dc1"), None)

  function Env(n: Name): Convergence.Environment {
    Convergence.Environment("", "dc1", "e", 0, Deployment(n, "d", STATE_SUCCESSFUL, ""))
  }

  /** A machine of that cluster is created and its node joins. */
  lemma DeployableRun(fleet: map<Name, P.MachineInfo>, clusters: map<Name, C.ClusterInfo>, n: Name)
      returns (states: seq<Sys>, acts: seq<Action>)
    requires n in fleet && fleet[n].cluster in clusters
    ensures Execution(states, acts) && Outcomes.Deployable(Last(states), n, OWNERS, Env(n))
    ensures Last(states).fleet == fleet && Last(states).clusters == clusters
    ensures ClusterSlot(Last(states), fleet[n].cluster) == PublishedSlot(fleet[n].cluster, clusters[fleet[n].cluster])
  {
    hide C.Checked, C.Publish, Execution;
    var c := fleet[n].cluster;
    states, acts := PublishedRun(fleet, clusters, c);
    states, acts := ThenMachine(states, acts, n, P.Create);
    states, acts := ThenMachine(states, acts, n, P.NodeJoins);
    var s := Last(states);
    assert ViewOf(s, c) == P.ClusterView(ClusterSlot(s, c).obj.Some?, ClusterSlot(s, c).infraReady);
  }

  /** Two reconciles later it is deployed. */
  lemma DeployedRun(fleet: map<Name, P.MachineInfo>, clusters: map<Name, C.ClusterInfo>, n: Name)
      returns (states: seq<Sys>, acts: seq<Action>)
    requires n in fleet && fleet[n].cluster in clusters
    ensures Execution(states, acts) && Convergence.Agreed(n, fleet[n], Slot(Last(states), n), Env(n))
    ensures Last(states).fleet == fleet && Last(states).clusters == clusters
    ensures ClusterSlot(Last(states), fleet[n].cluster) == PublishedSlot(fleet[n].cluster, clusters[fleet[n].cluster])
  {
    hide PublishedSlot, Convergence.Agreed, Outcomes.Solo, Initial, Inv;
    states, acts := DeployableRun(fleet, clusters, n);
    Reachable(states, acts, |acts|);
    Outcomes.SoloSettles(Last(states), n, OWNERS, Env(n));
    states, acts := ThenSolo(states, acts, n, OWNERS, Env(n));
    Outcomes.SoloSettles(Last(states), n, OWNERS, Env(n));
    states, acts := ThenSolo(states, acts, n, OWNERS, Env(n));
  }

  // ----------------------------------------------------------- a deletion that gets stuck

  predicate NotStarted(s: Sys, n: Name) {
    n in s.flights ==> s.flights[n].pc.ReadOwners?
  }

  /** While the NomadCluster is missing a machine's deletion makes no progress: the object, its
      job and its Consul entry stay as they are, whatever else happens. */
  lemma {:induction false} DeletionWaitsForCluster(states: seq<Sys>, acts: seq<Action>, i: nat, j: nat, n: Name)
    requires Execution(states, acts) && i <= j < |states| && n in states[i].fleet
    requires n in states[i].objects && states[i].objects[n].deleting && NotStarted(states[i], n)
    requires forall k :: i <= k < j ==> states[i].fleet[n].cluster !in states[k].nomadClusters
    ensures states[j].fleet == states[i].fleet && NotStarted(states[j], n)
    ensures n in states[j].objects && states[j].objects[n] == states[i].objects[n]
    ensures Get(states[j].jobs, n) == Get(states[i].jobs, n) && Get(states[j].services, n) == Get(states[i].services, n)
    decreases j
  {
    hide P.Step, P.Enabled, C.Step, C.Enabled, Safety.SlotInv;
    if i < j {
      DeletionWaitsForCluster(states, acts, i, j - 1, n);
      var s, a := states[j - 1], acts[j - 1];
      assert StepAt(states, acts, j - 1);
      Reachable(states, acts, j - 1);
      assert MachineInv(s, n);
      var v, v' := Slot(s, n), Slot(states[j], n);
      if !a.Crash? {
        Frame(s, a, n);
        if a.OnMachine? && a.n == n {
          WaitingStep(n, s.fleet[n], ViewOf(s, s.fleet[n].cluster), v, a.act);
        }
      }
      assert v.obj == Some(states[j - 1].objects[n]) && v'.obj == v.obj && v'.job == v.job && v'.svc == v.svc;
      assert NotStarted(states[j], n) by {
        assert n in states[j].flights ==> v'.flight == Some(states[j].flights[n]);
        assert n in s.flights ==> v.flight == Some(s.flights[n]);
      }
    }
  }

  lemma WaitingStep(n: Name, info: P.MachineInfo, view: P.ClusterView, v: P.Slot, a: P.Act)
    requires Safety.SlotInv(n, info, v) && P.Enabled(v, a) && !view.known
    requires v.obj.Some? && v.obj.value.deleting && (v.flight.Some? ==> v.flight.value.pc.ReadOwners?)
    ensures var v' := P.Step(n, info, view, v, a);
      v'.obj == v.obj && v'.job == v.job && v'.svc == v.svc && (v'.flight.Some? ==> v'.flight.value.pc.ReadOwners?)
  {
    hide P.JobFor, P.ServiceFor;
  }

  /** And the NomadCluster does not wait for its machines: from every reachable state three steps of
      its own, a user's delete and one reconcile, remove it, whatever machines, jobs and entries there are. */
  lemma ClusterDeletionDoesNotWait(states: seq<Sys>, acts: seq<Action>, c: Name)
      returns (states': seq<Sys>, acts': seq<Action>)
    requires Execution(states, acts) && c in Last(states).clusters && c !in Last(states).clusterFlights
    requires c in Last(states).nomadClusters && Last(states).nomadClusters[c].finalizer
    ensures Extends(states, acts, states', acts') && |acts'| == |acts| + 3
    ensures c !in Last(states').nomadClusters && SameMachines(Last(states), Last(states'))
  {
    hide Execution;
    states', acts' := ThenCluster(states, acts, c, C.UserDelete);
    states', acts' := ThenCluster(states', acts', c, C.Fetch(true));
    states', acts' := ThenCluster(states', acts', c, C.Closed(true, true));
    assert ClusterSlot(Last(states'), c).obj.None?;
  }

  /** A machine with its object, its job and, on the control plane, its Consul entry. */
  ghost predicate Stands(s: Sys, n: Name, info: P.MachineInfo) {
    && n in s.objects && s.objects[n].finalizer && n !in s.flights && n in s.jobs
    && (info.controlPlane ==> n in s.services && s.services[n] == P.ServiceFor(n, info))
  }

  lemma AgreedStands(s: Sys, n: Name, info: P.MachineInfo)
    requires Convergence.Agreed(n, info, Slot(s, n), Env(n))
    ensures Stands(s, n, info)
  {
    hide P.ServiceFor, P.JobFor;
    var v := Slot(s, n);
    assert v.obj.Some? && v.job.Some? && v.flight.None? && (info.controlPlane ==> v.svc.Some?);
  }

  /** The user deletes a machine. */
  lemma ThenDeleted(states: seq<Sys>, acts: seq<Action>, n: Name)
      returns (states': seq<Sys>, acts': seq<Action>)
    requires Execution(states, acts) && n in Last(states).fleet && Stands(Last(states), n, Last(states).fleet[n])
    ensures Extends(states, acts, states', acts')
    ensures var s, s' := Last(states), Last(states');
      && s'.fleet == s.fleet && s'.clusters == s.clusters && Stands(s', n, s.fleet[n]) && s'.objects[n].deleting
      && forall c :: ClusterSlot(s', c) == ClusterSlot(s, c)
  {
    hide P.ServiceFor, Initial;
    var s := Last(states);
    assert Slot(s, n).obj == Some(s.objects[n]);
    states', acts' := ThenMachine(states, acts, n, P.UserDelete);
  }

  /** Every machine can be stranded so: a run that ends with the machine being deleted, its NomadCluster
      gone, and its object, job and Consul entry still there. */
  lemma MachineIsStranded(fleet: map<Name, P.MachineInfo>, clusters: map<Name, C.ClusterInfo>, n: Name)
      returns (states: seq<Sys>, acts: seq<Action>)
    requires n in fleet && fleet[n].cluster in clusters
    ensures Execution(states, acts) && Last(states).fleet == fleet && Last(states).clusters == clusters
    ensures fleet[n].cluster !in Last(states).nomadClusters
    ensures Stands(Last(states), n, fleet[n]) && Last(states).objects[n].deleting
  {
    hide Initial, C.Publish, C.Checked, Convergence.Agreed, P.ServiceFor;
    var c := fleet[n].cluster;
    states, acts := DeployedRun(fleet, clusters, n);
    AgreedStands(Last(states), n, fleet[n]);
    states, acts := ThenDeleted(states, acts, n);
    assert ClusterSlot(Last(states), c) == PublishedSlot(c, clusters[c]);
    StoredCluster(Last(states), c, clusters[c]);
    states, acts := ClusterDeletionDoesNotWait(states, acts, c);
  }

  lemma StoredCluster(s: Sys, c: Name, info: C.ClusterInfo)
    requires ClusterSlot(s, c) == PublishedSlot(c, info)
    ensures c in s.nomadClusters && s.nomadClusters[c].finalizer && c !in s.clusterFlights
    ensures s.nomadClusters[c].endpoint.port == C.ApiServerPort(info) && Runs.PublishedIn(s, c)
  {
    assert ClusterSlot(s, c).obj.Some? && ClusterSlot(s, c).flight.None?;
    assert c + "." + "service.consul" == c + ".service.consul";
  }

  // ----------------------------------------------------------- an endpoint at the wrong port

  /** For every control-plane machine of a Cluster that asks for another port than 6443, a run after which the
      published endpoint and the Consul entry it stands for name different ports. */
  lemma PortsDisagree(fleet: map<Name, P.MachineInfo>, clusters: map<Name, C.ClusterInfo>, n: Name)
      returns (states: seq<Sys>, acts: seq<Action>)
    requires n in fleet && fleet[n].controlPlane && fleet[n].cluster in clusters
    requires clusters[fleet[n].cluster].apiServerPort !in {None, Some(6443)}
    ensures Execution(states, acts) && Last(states).fleet == fleet && Last(states).clusters == clusters
    ensures var s, c := Last(states), fleet[n].cluster;
      && Runs.PublishedIn(s, c) && n in s.services
      && s.services[n].port == 6443 && s.nomadClusters[c].endpoint.port == clusters[c].apiServerPort.value != 6443
  {
    hide Initial, Convergence.Agreed, PublishedSlot, Runs.PublishedIn;
    states, acts := DeployedRun(fleet, clusters, n);
    AgreedStands(Last(states), n, fleet[n]);
    StoredCluster(Last(states), fleet[n].cluster, clusters[fleet[n].cluster]);
  }
}
