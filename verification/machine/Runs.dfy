/** What holds over whole executions of the system, whatever the interleaving of
    reconciles, user deletes, crashes and failing calls. */
module Runs {
  import opened Common
  import opened Types
  import opened System
  import P = Protocol
  import C = ClusterProtocol
  import Safety
  import ProviderId
  import Fnv
  import MacAddress

  lemma StateInv(states: seq<Sys>, acts: seq<Action>, i: nat, n: Name)
    requires Execution(states, acts) && i < |states|
    ensures n in states[i].fleet ==> Safety.SlotInv(n, states[i].fleet[n], Slot(states[i], n))
    ensures n !in states[i].fleet ==> Slot(states[i], n) == P.EMPTY_SLOT
    ensures states[i].fleet == states[0].fleet && states[i].clusters == states[0].clusters
  {
    hide Safety.SlotInv;
    Reachable(states, acts, i);
    assert MachineInv(states[i], n);
  }

  /** No leaked job: a Nomad job with a machine's name is always held by the stored finalizer. */
  lemma NoLeakedJob(states: seq<Sys>, acts: seq<Action>, i: nat, n: Name)
    requires Execution(states, acts) && i < |states| && n in states[i].jobs
    ensures n in states[i].objects && states[i].objects[n].finalizer
    ensures states[i].jobs[n].id == n
  {
    StateInv(states, acts, i, n);
    assert Slot(states[i], n).job.Some?;
  }

  /** No leaked Consul entry: it belongs to a control-plane machine whose finalizer holds it,
      and it names that machine's cluster. */
  lemma NoLeakedService(states: seq<Sys>, acts: seq<Action>, i: nat, n: Name)
    requires Execution(states, acts) && i < |states| && n in states[i].services
    ensures n in states[i].objects && states[i].objects[n].finalizer
    ensures n in states[0].fleet && states[0].fleet[n].controlPlane
    ensures states[i].services[n] == Service(states[0].fleet[n].cluster, n, ["api-server"], n + ".sc", 6443)
  {
    StateInv(states, acts, i, n);
    assert Slot(states[i], n).svc.Some?;
  }

  /** Until a machine is deleted, DNSAttached means that its Consul entry exists. */
  lemma AttachedMeansRegistered(states: seq<Sys>, acts: seq<Action>, i: nat, n: Name)
    requires Execution(states, acts) && i < |states| && n in states[i].objects
    requires !states[i].objects[n].deleting && states[i].objects[n].dnsAttached
    ensures n in states[i].services
  {
    StateInv(states, acts, i, n);
    assert Slot(states[i], n).obj.Some?;
  }

  /** Ready is stored exactly with a successful deployment; MachineDeployed=True implies it. */
  lemma ReadyIffSuccessful(states: seq<Sys>, acts: seq<Action>, i: nat, n: Name)
    requires Execution(states, acts) && i < |states| && n in states[i].objects
    ensures states[i].objects[n].ready <==> states[i].objects[n].deploymentStatus == Some("successful")
    ensures states[i].objects[n].deployed.IsTrue? ==> states[i].objects[n].ready
  {
    StateInv(states, acts, i, n);
    assert Slot(states[i], n).obj.Some?;
  }

  // --------------------------------------------------------------------- pairs of states

  lemma StepOk(states: seq<Sys>, acts: seq<Action>, i: nat, n: Name)
    requires Execution(states, acts) && i < |acts|
    ensures Safety.SlotStepOk(Slot(states[i], n), Slot(states[i + 1], n))
  {
    hide P.Step, P.Enabled, Safety.SlotInv;
    StateInv(states, acts, i, n);
    assert StepAt(states, acts, i);
    var s, a := states[i], acts[i];
    if a.Crash? {
      assert Slot(states[i + 1], n) == Slot(s, n).(flight := None);
    } else {
      Frame(s, a, n);
      if a.OnMachine? && a.n == n {
        Safety.StepKeepsInvariant(n, s.fleet[n], ViewOf(s, s.fleet[n].cluster), Slot(s, n), a.act);
      }
    }
  }

  /** The step that ends the finalizer's hold finds the job and the Consul entry already gone. */
  lemma FinalizerLeavesLast(states: seq<Sys>, acts: seq<Action>, i: nat, n: Name)
    requires Execution(states, acts) && i < |acts|
    requires n in states[i].objects && states[i].objects[n].finalizer
    requires n in states[i + 1].objects ==> !states[i + 1].objects[n].finalizer
    ensures n !in states[i].jobs && n !in states[i].services
  {
    StepOk(states, acts, i, n);
    assert Safety.Held(Slot(states[i], n)) && !Safety.Held(Slot(states[i + 1], n));
  }

  ghost predicate StoredThroughout(states: seq<Sys>, i: nat, j: nat, n: Name)
    requires i <= j < |states|
  {
    forall k :: i <= k <= j ==> n in states[k].objects
  }

  /** While the object exists, a failure reason stays set and a deletion stays requested. */
  lemma {:induction false} FailureAndDeletionStick(states: seq<Sys>, acts: seq<Action>, i: nat, j: nat, n: Name)
    requires Execution(states, acts) && i <= j < |states| && StoredThroughout(states, i, j, n)
    ensures states[i].objects[n].failureReason.Some? ==> states[j].objects[n].failureReason.Some?
    ensures states[i].objects[n].deleting ==> states[j].objects[n].deleting
    decreases j
  {
    if i < j {
      FailureAndDeletionStick(states, acts, i, j - 1, n);
      StepOk(states, acts, j - 1, n);
      assert Slot(states[j - 1], n).obj.Some? && Slot(states[j], n).obj.Some?;
    }
  }

  /** A Consul entry that has gone was removed while its machine was being deleted. */
  lemma {:induction false} OnlyDeletionDetaches(states: seq<Sys>, acts: seq<Action>, i: nat, j: nat, n: Name)
    requires Execution(states, acts) && i <= j < |states|
    requires n in states[i].services && n !in states[j].services
    ensures exists k :: i <= k < j && n in states[k].objects && states[k].objects[n].deleting
    decreases j
  {
    if n in states[j - 1].services {
      StepOk(states, acts, j - 1, n);
      assert Slot(states[j - 1], n).svc.Some? && Slot(states[j], n).svc.None?;
      assert i <= j - 1 < j && n in states[j - 1].objects && states[j - 1].objects[n].deleting;
    } else {
      OnlyDeletionDetaches(states, acts, i, j - 1, n);
    }
  }

  /** Quiescence means agreement: a reconcile that got past deployment and whose Close succeeds
      with nothing to requeue leaves the node, the stored object and the deployment in agreement. */
  lemma QuiescenceIsAgreement(states: seq<Sys>, acts: seq<Action>, i: nat, n: Name, took: bool)
    requires Execution(states, acts) && i < |acts|
    requires acts[i] == OnMachine(n, P.Closed(took, true))
    requires n in states[i].flights && states[i].flights[n].pc == P.Close(P.Done)
    requires states[i].flights[n].deployment.Some?
    ensures Safety.Settled(Slot(states[i + 1], n), states[i].flights[n].deployment.value)
    ensures var d, s' := states[i].flights[n].deployment.value, states[i + 1];
      && n in s'.nodes && s'.nodes[n] == "nomad:///" + d.jobID + "/" + d.id
      && n in s'.objects && s'.objects[n].providerID == Some("nomad:///" + d.jobID + "/" + d.id)
      && s'.objects[n].deploymentStatus == Some(d.status) && d.status in {"running", "successful"}
  {
    hide P.Step, P.Enabled, Safety.SlotInv, Safety.Settled;
    StateInv(states, acts, i, n);
    assert StepAt(states, acts, i);
    Frame(states[i], acts[i], n);
    SettledInStore(states[i + 1], n, states[i].flights[n].deployment.value);
    var info := states[i].fleet[n];
    Safety.ClosedMachine(n, info, ViewOf(states[i], info.cluster), Slot(states[i], n), took, true);
  }

  lemma SettledInStore(s: Sys, n: Name, d: Deployment)
    ensures Safety.Settled(Slot(s, n), d) ==>
      && n in s.nodes && s.nodes[n] == "nomad:///" + d.jobID + "/" + d.id
      && n in s.objects && s.objects[n].providerID == Some("nomad:///" + d.jobID + "/" + d.id)
      && s.objects[n].deploymentStatus == Some(d.status) && d.status in {"running", "successful"}
  {
    hide ProviderId.Format;
    ProviderId.FormatIs(d.jobID, d.id);
    StateSetsCoincide(d.status);
    var v := Slot(s, n);
    assert v.obj.Some? ==> n in s.objects && v.obj.value == s.objects[n];
    assert v.node.Some? ==> n in s.nodes && v.node.value == s.nodes[n];
  }

  /** And then the node's provider id names the job and the deployment, as job ids hold no '/'. */
  lemma QuiescentNodeNamesDeployment(states: seq<Sys>, acts: seq<Action>, i: nat, n: Name, took: bool)
    requires Execution(states, acts) && i < |acts|
    requires acts[i] == OnMachine(n, P.Closed(took, true))
    requires n in states[i].flights && states[i].flights[n].pc == P.Close(P.Done)
    requires states[i].flights[n].deployment.Some? && '/' !in states[i].flights[n].deployment.value.jobID
    ensures n in states[i + 1].nodes
    ensures var d := states[i].flights[n].deployment.value;
      ProviderId.Parse(states[i + 1].nodes[n]) == Some((d.jobID, d.id))
  {
    hide ProviderId.Format, ProviderId.Parse;
    QuiescenceIsAgreement(states, acts, i, n, took);
    assert Slot(states[i + 1], n).node.Some?;
    var d := states[i].flights[n].deployment.value;
    ProviderId.RoundTripIff(d.jobID, d.id);
  }

  /** A panic in DeployMachine still closes the scope, but with nothing to persist. */
  lemma PanicPersistsNothing(states: seq<Sys>, acts: seq<Action>, i: nat, n: Name, took: bool, ok: bool)
    requires Execution(states, acts) && i < |acts|
    requires acts[i] == OnMachine(n, P.Closed(took, ok))
    requires n in states[i].flights && states[i].flights[n].pc == P.Close(P.Panicked)
    ensures states[i + 1].objects == states[i].objects && states[i + 1].jobs == states[i].jobs
  {
    hide P.Step, P.Enabled, Safety.SlotInv;
    StateInv(states, acts, i, n);
    assert StepAt(states, acts, i);
    var v := Slot(states[i], n);
    Safety.ClosedMachine(n, states[i].fleet[n], ViewOf(states[i], states[i].fleet[n].cluster), v, took, ok);
    assert Put(states[i].jobs, n, v.job) == states[i].jobs && Put(states[i].objects, n, v.obj) == states[i].objects;
  }

  /** Two registered machines whose names differ in one octet have different MAC addresses;
      in general they share one exactly when their hashes collide. */
  lemma RegisteredMacs(states: seq<Sys>, acts: seq<Action>, i: nat, n: Name, m: Name)
    requires Execution(states, acts) && i < |states| && n in states[i].jobs && m in states[i].jobs
    ensures states[i].jobs[n].mac == states[i].jobs[m].mac <==>
      Fnv.Fnv1a(P.OctetsOf(n)) % MacAddress.MODULUS == Fnv.Fnv1a(P.OctetsOf(m)) % MacAddress.MODULUS
    ensures Fnv.DifferInOneOctet(P.OctetsOf(n), P.OctetsOf(m)) ==> states[i].jobs[n].mac != states[i].jobs[m].mac
  {
    hide MacAddress.MacOf, Fnv.Fnv1a, Fnv.DifferInOneOctet;
    StateInv(states, acts, i, n);
    StateInv(states, acts, i, m);
    assert Slot(states[i], n).job.Some? && Slot(states[i], m).job.Some?;
    MacAddress.CollisionIff(P.OctetsOf(n), P.OctetsOf(m));
    if Fnv.DifferInOneOctet(P.OctetsOf(n), P.OctetsOf(m)) {
      MacAddress.OneOctetChangesMac(P.OctetsOf(n), P.OctetsOf(m));
    }
  }

  /** Before step i the owners of n were read with that failure domain and user data. */
  ghost predicate ChosenBefore(acts: seq<Action>, i: nat, n: Name, datacenter: string, userData: string)
    requires i <= |acts|
  {
    exists k :: 0 <= k < i && acts[k].OnMachine? && acts[k].n == n && acts[k].act.Read? &&
                Safety.Chooses(acts[k].act.owners, datacenter, userData)
  }

  ghost predicate Provenance(s: Sys, acts: seq<Action>, i: nat, n: Name)
    requires i <= |acts|
  {
    var v := Slot(s, n);
    && (v.flight.Some? && v.flight.value.pc.RegisterJob? ==>
          ChosenBefore(acts, i, n, v.flight.value.pc.datacenter, v.flight.value.pc.userData))
    && (v.job.Some? ==> ChosenBefore(acts, i, n, v.job.value.datacenter, v.job.value.userData))
  }

  lemma {:induction false} ProvenanceHolds(states: seq<Sys>, acts: seq<Action>, i: nat, n: Name)
    requires Execution(states, acts) && i < |states|
    ensures Provenance(states[i], acts, i, n)
  {
    if i > 0 {
      ProvenanceHolds(states, acts, i - 1, n);
      ProvenanceStep(states, acts, i - 1, n);
    }
  }

  lemma ProvenanceStep(states: seq<Sys>, acts: seq<Action>, i: nat, n: Name)
    requires Execution(states, acts) && i < |acts| && Provenance(states[i], acts, i, n)
    ensures Provenance(states[i + 1], acts, i + 1, n)
  {
    hide P.Step, P.Enabled, Safety.Chooses;
    assert StepAt(states, acts, i);
    var s, a := states[i], acts[i];
    var v, v' := Slot(s, n), Slot(states[i + 1], n);
    forall dc, ud | ChosenBefore(acts, i, n, dc, ud)
      ensures ChosenBefore(acts, i + 1, n, dc, ud)
    {
    }
    if a.Crash? {
      assert v' == v.(flight := None);
    } else {
      Frame(s, a, n);
      if a.OnMachine? && a.n == n {
        var view := ViewOf(s, s.fleet[n].cluster);
        Safety.DeploymentBeginsWithRead(n, s.fleet[n], view, v, a.act);
        Safety.JobIsWhatWasChosen(n, s.fleet[n], view, v, a.act);
      }
    }
  }

  /** Every registered job has the user data that was read for its machine, the failure domain that was read
      with it, the NomadMachine's own before the Machine's, and the MAC address of the machine's name. */
  lemma JobsAreAsRead(states: seq<Sys>, acts: seq<Action>, i: nat, n: Name)
    requires Execution(states, acts) && i < |states| && n in states[i].jobs
    ensures states[i].jobs[n].id == n && states[i].jobs[n].mac == MacAddress.MacOf(P.OctetsOf(n))
    ensures exists k ::
      && 0 <= k < i && acts[k].OnMachine? && acts[k].n == n && acts[k].act.Read?
      && (var o, job := acts[k].act.owners, states[i].jobs[n];
          && o.Found? && o.bootstrap == P.Data(job.userData)
          && Some(job.datacenter) == (if o.ownDomain.Some? then o.ownDomain else o.machineDomain))
  {
    hide MacAddress.MacOf;
    ProvenanceHolds(states, acts, i, n);
    StateInv(states, acts, i, n);
    var v := Slot(states[i], n);
    assert v.job == Some(states[i].jobs[n]);
    var k :| 0 <= k < i && acts[k].OnMachine? && acts[k].n == n && acts[k].act.Read? &&
             Safety.Chooses(acts[k].act.owners, v.job.value.datacenter, v.job.value.userData);
  }

  // ------------------------------------------------------------------- across controllers

  ghost predicate PublishedIn(s: Sys, c: Name) {
    c in s.nomadClusters && s.nomadClusters[c].ready &&
    s.nomadClusters[c].endpoint.host == c + ".service.consul"
  }

  ghost predicate PublishedBy(states: seq<Sys>, i: nat, c: Name)
    requires i < |states|
  {
    exists k :: 0 <= k <= i && PublishedIn(states[k], c)
  }

  predicate PastTheGate(pc: P.Pc) {
    || pc.RegisterJob? || pc.QueryEval? || pc.FetchDeployment?
    || pc.RegisterService? || pc.CheckApiServer? || pc.PatchNode?
  }

  predicate PastTheGateFor(s: Sys, n: Name, c: Name) {
    n in s.fleet && s.fleet[n].cluster == c && n in s.flights && PastTheGate(s.flights[n].pc)
  }

  /** The deployment branch is entered only by reading InfrastructureReady. */
  lemma GateNeedsInfrastructure(n: Name, info: P.MachineInfo, cluster: P.ClusterView, v: P.Slot, a: P.Act)
    requires P.Enabled(v, a) && Safety.FlightOk(info, v)
    ensures var v' := P.Step(n, info, cluster, v, a);
      v'.flight.Some? && PastTheGate(v'.flight.value.pc) ==>
        cluster.infraReady || (v.flight.Some? && PastTheGate(v.flight.value.pc))
  {
    hide P.JobFor, P.ServiceFor, P.Report, ProviderId.Format, P.Merge;
  }

  ghost predicate History(states: seq<Sys>, i: nat, c: Name)
    requires i < |states|
  {
    && (c in states[i].coreSawReady ==> PublishedBy(states, i, c))
    && (c in states[i].infraReady ==> PublishedBy(states, i, c))
    && (forall n :: PastTheGateFor(states[i], n, c) ==> PublishedBy(states, i, c))
  }

  lemma {:induction false} HistoryHolds(states: seq<Sys>, acts: seq<Action>, i: nat, c: Name)
    requires Execution(states, acts) && i < |states|
    ensures History(states, i, c)
  {
    if i > 0 {
      HistoryHolds(states, acts, i - 1, c);
      HistoryStep(states, acts, i - 1, c);
    }
  }

  lemma HistoryStep(states: seq<Sys>, acts: seq<Action>, i: nat, c: Name)
    requires Execution(states, acts) && i < |acts| && History(states, i, c)
    ensures History(states, i + 1, c)
  {
    hide P.Step, P.Enabled, C.Step, C.Enabled, PublishedIn;
    var s, a, s' := states[i], acts[i], states[i + 1];
    assert StepAt(states, acts, i);
    if PublishedBy(states, i, c) {
      var k :| 0 <= k <= i && PublishedIn(states[k], c);
      assert PublishedBy(states, i + 1, c);
    } else {
      Reachable(states, acts, i);
      assert ClusterInv(s, c);
      InfrastructureNeedsReady(s, a, c);
      assert !PublishedIn(states[i], c);
      forall n
        ensures !PastTheGateFor(s', n, c)
      {
        assert !PastTheGateFor(s, n, c) && MachineInv(s, n);
        GateStep(s, a, n, c);
      }
    }
  }

  /** InfrastructureReady appears only after a read of Ready, and that only while the NomadCluster
      is published. */
  lemma InfrastructureNeedsReady(s: Sys, a: Action, c: Name)
    requires Enabled(s, a) && ClusterInv(s, c)
    ensures c in Apply(s, a).coreSawReady ==> c in s.coreSawReady || PublishedIn(s, c)
    ensures c in Apply(s, a).infraReady ==> c in s.infraReady || c in s.coreSawReady
  {
    hide P.Step, P.Enabled, WithClusterSlot;
    var s' := Apply(s, a);
    if !a.Crash? {
      Frame(s, a, c);
      assert c in s'.coreSawReady <==> ClusterSlot(s', c).coreSawReady;
      assert c in s'.infraReady <==> ClusterSlot(s', c).infraReady;
      if c in s'.coreSawReady && c !in s.coreSawReady {
        assert ClusterSlot(s, c).obj.Some?;
        PublishedHost(s, c);
      }
    }
  }

  lemma GateStep(s: Sys, a: Action, n: Name, c: Name)
    requires Enabled(s, a) && MachineInv(s, n)
    requires c !in s.infraReady && !PastTheGateFor(s, n, c)
    ensures !PastTheGateFor(Apply(s, a), n, c)
  {
    hide P.Step, P.Enabled, C.Step, C.Enabled;
    var s' := Apply(s, a);
    if !a.Crash? {
      Frame(s, a, n);
      assert n in s'.flights ==> Slot(s', n).flight == Some(s'.flights[n]);
      assert Slot(s, n).flight.Some? ==> n in s.flights && Slot(s, n).flight.value == s.flights[n];
      if a.OnMachine? && a.n == n && s.fleet[n].cluster == c {
        GateNeedsInfrastructure(n, s.fleet[n], ViewOf(s, c), Slot(s, n), a.act);
      }
    }
  }

  lemma PublishedHost(s: Sys, c: Name)
    requires ClusterInv(s, c) && c in s.nomadClusters && s.nomadClusters[c].ready
    ensures PublishedIn(s, c)
  {
    assert ClusterSlot(s, c).obj.Some?;
    assert c + "." + "service.consul" == c + ".service.consul";
  }

  /** No job is registered for a cluster before its NomadCluster was stored Ready with the
      endpoint host under which its control-plane machines register in Consul. */
  lemma JobsFollowPublication(states: seq<Sys>, acts: seq<Action>, i: nat)
    requires Execution(states, acts) && i < |acts| && acts[i].OnMachine?
    requires acts[i].act.JobRegistered? || acts[i].act.ServiceRegistered?
    ensures acts[i].n in states[0].fleet
    ensures exists k :: 0 <= k <= i && PublishedIn(states[k], states[0].fleet[acts[i].n].cluster)
  {
    var n := acts[i].n;
    assert StepAt(states, acts, i);
    Reachable(states, acts, i);
    HistoryHolds(states, acts, i, states[0].fleet[n].cluster);
    assert Slot(states[i], n).flight.Some? && PastTheGate(states[i].flights[n].pc);
    assert PastTheGateFor(states[i], n, states[0].fleet[n].cluster);
    assert PublishedBy(states, i, states[0].fleet[n].cluster);
  }

  /** The published host is the DNS name of the Consul service the machines register under;
      the published port is theirs exactly if the Cluster asks for no other than 6443. */
  lemma EndpointNamesTheService(states: seq<Sys>, acts: seq<Action>, i: nat, n: Name)
    requires Execution(states, acts) && i < |states| && n in states[i].services
    requires n in states[0].fleet && states[0].fleet[n].cluster in states[0].clusters
    requires PublishedIn(states[i], states[0].fleet[n].cluster)
    ensures states[i].nomadClusters[states[0].fleet[n].cluster].endpoint.host ==
      states[i].services[n].name + ".service.consul"
    ensures states[i].nomadClusters[states[0].fleet[n].cluster].endpoint.port ==
      match states[0].clusters[states[0].fleet[n].cluster].apiServerPort case Some(port) => port case None => 6443
    ensures states[i].nomadClusters[states[0].fleet[n].cluster].endpoint.port == states[i].services[n].port <==>
      states[0].clusters[states[0].fleet[n].cluster].apiServerPort in {None, Some(6443)}
  {
    NoLeakedService(states, acts, i, n);
    Reachable(states, acts, i);
    var c := states[0].fleet[n].cluster;
    assert ClusterInv(states[i], c) && ClusterSlot(states[i], c).obj.Some?;
  }

  /** No reconcile of a stored NomadCluster takes Ready back. */
  lemma {:induction false} ClusterStaysReady(states: seq<Sys>, acts: seq<Action>, i: nat, j: nat, c: Name)
    requires Execution(states, acts) && i <= j < |states|
    requires forall k :: i <= k <= j ==> c in states[k].nomadClusters
    requires states[i].nomadClusters[c].ready
    ensures states[j].nomadClusters[c].ready
    decreases j
  {
    hide C.Step, C.Enabled, C.ClusterInv;
    if i < j {
      ClusterStaysReady(states, acts, i, j - 1, c);
      var s, a := states[j - 1], acts[j - 1];
      assert StepAt(states, acts, j - 1);
      Reachable(states, acts, j - 1);
      assert ClusterInv(s, c);
      assert ClusterSlot(s, c).obj.Some? && ClusterSlot(states[j], c).obj.Some?;
      if !a.Crash? {
        Frame(s, a, c);
        if a.OnCluster? && a.c == c {
          C.StepKeepsClusterInv(c, s.clusters[c], ClusterSlot(s, c), a.clusterAct);
        }
      }
    }
  }
}
