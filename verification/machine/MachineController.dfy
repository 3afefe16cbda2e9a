/** The machine reconciler as it runs: its branches and remote calls in order, with other
    actors in between. Each method is proved to be a run of the step system, so every
    invariant of the system holds at each of its calls. */
module MachineController {
  import opened Common
  import opened Types
  import opened System
  import opened World
  import opened MachineScope
  import opened MachineReturns
  import P = Protocol
  import Evaluation
  import MacAddress
  import ProviderId
  import Runs
  import Safety

  // -------------------------------------------------------------- the reconcile in flight

  /** The stores hold machine n's reconcile in flight. */
  ghost predicate Holds(w: Stores, scope: Scope, flight: P.Flight)
    reads w, scope
  {
    && w.Valid()
    && scope.name in w.sys.fleet && w.sys.fleet[scope.name] == scope.info
    && Get(w.sys.flights, scope.name) == Some(flight)
  }

  /** They hold it as the scope has it, about to do pc. */
  ghost predicate At(w: Stores, scope: Scope, before: NomadMachine, deployment: Option<Deployment>, pc: P.Pc)
    reads w, scope
  {
    Holds(w, scope, P.Flight(before, scope.nomadMachine, deployment, pc))
  }

  ghost predicate Continues(states: seq<Sys>, acts: seq<Action>, w: Stores)
    reads w
  {
    acts <= w.acts && states <= w.states
  }

  ghost function JobOf(w: Stores, n: Name): Option<Job>
    reads w
  {
    Get(w.sys.jobs, n)
  }

  /** The last step was the reconcile's own, taken in state s. */
  ghost predicate LastCall(w: Stores, n: Name, act: P.Act, s: Sys)
    reads w
  {
    && |w.states| == |w.acts| + 1 && w.acts != []
    && w.acts[|w.acts| - 1] == OnMachine(n, act) && w.states[|w.acts| - 1] == s
  }

  /** One remote call of the reconcile in flight. */
  method Advance(w: Stores, scope: Scope, ghost f: P.Flight, act: P.Act)
    requires Holds(w, scope, f) && P.Enabled(Slot(w.sys, scope.name), act)
    requires !act.Create? && !act.UserDelete? && !act.NodeJoins? && !act.Fetch? && !act.Read? && !act.Closed?
    modifies w
    ensures Continues(old(w.states), old(w.acts), w) && LastCall(w, scope.name, act, old(w.sys))
    ensures Holds(w, scope, P.NextFlight(scope.name, scope.info, f, Get(old(w.sys).nodes, scope.name), act))
    ensures Slot(w.sys, scope.name) == P.Step(scope.name, scope.info,
      ViewOf(old(w.sys), scope.info.cluster), old(Slot(w.sys, scope.name)), act)
    ensures !act.JobRegistered? && !act.JobDeregistered? ==> JobOf(w, scope.name) == old(JobOf(w, scope.name))
  {
    hide Execution, P.Enabled, P.NextFlight, P.JobFor, P.ServiceFor, WithSlot;
    if !act.JobRegistered? && !act.JobDeregistered? {
      var v, view := Slot(w.sys, scope.name), ViewOf(w.sys, scope.info.cluster);
      Safety.OnlyJobCallsTouchJobs(scope.name, scope.info, view, v, act);
    }
    SlotParts(w.sys, scope.name);
    w.Call(scope.name, act);
    SlotParts(w.sys, scope.name);
  }

  /** The others' turn, in which our own reconcile stands still. */
  method Pause(w: Stores, scope: Scope, ghost f: P.Flight)
    requires Holds(w, scope, f)
    modifies w
    ensures Continues(old(w.states), old(w.acts), w)
    ensures Holds(w, scope, f) && OwnAffairs(old(w.sys), w.sys, scope.name)
  {
    hide Execution, Turn;
    w.Yield(scope.name);
  }

  // ------------------------------------------------------------ the remote operations

  /** Jobs().Register. */
  method SubmitJob(w: Stores, scope: Scope, ghost f: P.Flight, job: Job, r: JobReply)
    requires Holds(w, scope, f) && f.pc.RegisterJob?
    requires job == P.JobFor(scope.name, f.pc.datacenter, f.pc.userData)
    modifies w
    ensures Continues(old(w.states), old(w.acts), w)
    ensures !r.JobAccepted? ==> Holds(w, scope, P.DeployFailed(f))
    ensures r.JobAccepted? ==>
      Holds(w, scope, f.(pc := if r.evalID == "" then P.Close(P.Panicked) else P.QueryEval(r.evalID)))
    ensures JobOf(w, scope.name) == if r.JobLost? then old(JobOf(w, scope.name)) else Some(job)
  {
    hide Execution, P.JobFor, P.ServiceFor, WithSlot;
    Advance(w, scope, f, P.JobRegistered(!r.JobLost?, if r.JobAccepted? then Some(r.evalID) else None));
    SlotParts(w.sys, scope.name);
  }

  /** RegisterService of the Consul agent. */
  method SubmitService(w: Stores, scope: Scope, ghost f: P.Flight, service: Service, r: Reply)
    requires Holds(w, scope, f) && f.pc.RegisterService? && service == P.ServiceFor(scope.name, scope.info)
    modifies w
    ensures Continues(old(w.states), old(w.acts), w)
    ensures Holds(w, scope,
      if r.Succeeded? then f.(local := f.local.(dnsAttached := true, dns := IsTrue), pc := P.CheckApiServer)
      else f.(pc := P.Close(P.Failed)))
    ensures Get(w.sys.services, scope.name) == if r.Lost? then old(Get(w.sys.services, scope.name)) else Some(service)
    ensures JobOf(w, scope.name) == old(JobOf(w, scope.name))
  {
    hide Execution, P.JobFor, P.ServiceFor, WithSlot;
    Advance(w, scope, f, P.ServiceRegistered(Took(r), r.Succeeded?));
    SlotParts(w.sys, scope.name);
  }

  /** DeregisterService of the Consul agent. */
  method RemoveService(w: Stores, scope: Scope, ghost f: P.Flight, serviceID: string, r: Reply)
    requires Holds(w, scope, f) && f.pc.DeregisterService? && serviceID == scope.name
    modifies w
    ensures Continues(old(w.states), old(w.acts), w)
    ensures Holds(w, scope,
      if r.Succeeded? then f.(local := f.local.(dnsAttached := false, dns := IsFalse(DNS_ATTACH_PENDING)),
                              pc := P.AfterDns(f.local))
      else f.(pc := P.Close(P.Failed)))
    ensures Get(w.sys.services, serviceID) == if r.Lost? then old(Get(w.sys.services, serviceID)) else None
    ensures JobOf(w, scope.name) == old(JobOf(w, scope.name))
  {
    hide Execution, P.JobFor, P.ServiceFor, WithSlot;
    Advance(w, scope, f, P.ServiceDeregistered(Took(r), r.Succeeded?));
    SlotParts(w.sys, scope.name);
  }

  /** ReleaseMachine: deregisters and purges the job. */
  method ReleaseMachine(w: Stores, scope: Scope, ghost f: P.Flight, jobID: string, r: Reply)
    requires Holds(w, scope, f) && f.pc.DeregisterJob? && jobID == scope.name
    modifies w
    ensures Continues(old(w.states), old(w.acts), w)
    ensures Holds(w, scope,
      if r.Succeeded? then f.(local := f.local.(deployed := IsFalse(DELETED), finalizer := false),
                              pc := P.Close(P.Done))
      else f.(pc := P.Close(P.Failed)))
    ensures JobOf(w, jobID) == if r.Lost? then old(JobOf(w, jobID)) else None
  {
    hide Execution, P.JobFor, P.ServiceFor, WithSlot;
    Advance(w, scope, f, P.JobDeregistered(Took(r), r.Succeeded?));
    SlotParts(w.sys, scope.name);
  }

  // ------------------------------------------------------------------ the reconciler

  /** Queries the evaluation again for as long as it is pending. `done` is false if all the answers
      so far were. */
  method GetDeploymentIDFromEval(w: Stores, scope: Scope, ghost before: NomadMachine, evalID: string,
                                 evals: seq<Evaluation.Reply>)
      returns (done: bool, id: Option<string>)
    requires At(w, scope, before, None, P.QueryEval(evalID))
    modifies w
    ensures Continues(old(w.states), old(w.acts), w) && JobOf(w, scope.name) == old(JobOf(w, scope.name))
    ensures done <==> Evaluation.Poll(evals).Some?
    ensures done ==> id == Evaluation.Poll(evals).value.0
    // the first answer that is not pending decides: only "complete" yields its deployment id
    ensures done <==> exists i :: Evaluation.EndsAt(evals, i)
    ensures forall i :: Evaluation.EndsAt(evals, i) ==>
      id == if evals[i].Eval? && evals[i].status == "complete" then Some(evals[i].deploymentID) else None
    ensures !done ==> At(w, scope, before, None, P.QueryEval(evalID))
    ensures done && id.Some? ==> At(w, scope, before, None, P.FetchDeployment(id.value))
    ensures done && id.None? ==>
      Holds(w, scope, P.DeployFailed(P.Flight(before, scope.nomadMachine, None, P.QueryEval(evalID))))
    decreases |evals|
  {
    hide Execution, P.Step, WithSlot;
    ghost var f := P.Flight(before, scope.nomadMachine, None, P.QueryEval(evalID));
    Evaluation.PollIsDecided(evals);
    Evaluation.EndsSomewhere(evals);
    Pause(w, scope, f);
    if evals == [] {
      return false, None;
    }
    Advance(w, scope, f, P.EvalAnswered(evals[0]));
    if Evaluation.Pending(evals[0]) {
      done, id := GetDeploymentIDFromEval(w, scope, before, evalID, evals[1..]);
    } else {
      done, id := true, Evaluation.Outcome(evals[0]);
    }
  }

  /** The reconcile in flight once deployment d has been fetched. */
  ghost function Reporting(scope: Scope, before: NomadMachine, nm: NomadMachine, d: Deployment): P.Flight
    reads scope
  {
    var nm' := P.Report(nm, scope.name, d);
    P.Flight(before, nm', Some(d), if d.status in KNOWN_STATES then P.DnsStep(nm', scope.info) else P.CheckApiServer)
  }

  /** Deployments().Info; its error is dropped, and a missing deployment panics. */
  method GetDeployment(w: Stores, scope: Scope, ghost before: NomadMachine, deploymentID: string, r: Replies)
    requires At(w, scope, before, None, P.FetchDeployment(deploymentID))
    modifies w
    ensures Continues(old(w.states), old(w.acts), w) && JobOf(w, scope.name) == old(JobOf(w, scope.name))
    ensures r.deployment.None? ==> At(w, scope, before, None, P.Close(P.Panicked))
    ensures r.deployment.Some? ==> Holds(w, scope, Reporting(scope, before, scope.nomadMachine, r.deployment.value))
  {
    hide Execution, P.Report, P.Step, WithSlot;
    ghost var f := P.Flight(before, scope.nomadMachine, None, P.FetchDeployment(deploymentID));
    Pause(w, scope, f);
    Advance(w, scope, f, P.DeploymentFetched(r.deployment));
  }

  /** What comes of DeployMachine: a machine, an error, a nil dereference, or nothing yet. */
  datatype Deployed = Machine(deployment: Deployment) | DeployError | NilDereference | Waiting

  /** Registers the job, waits for its evaluation and fetches the deployment. */
  method DeployMachine(w: Stores, scope: Scope, ghost before: NomadMachine, userData: string, r: Replies)
      returns (out: Deployed)
    requires r.owners.Found?
    requires Holds(w, scope,
      P.StartDeploy(P.Flight(before, scope.nomadMachine, None, P.ReadOwners), P.FailureDomain(r.owners), userData))
    modifies w
    ensures Continues(old(w.states), old(w.acts), w)
    // exactly when it ends how
    ensures out.Machine? <==> EndsInMachine(r)
    ensures out.DeployError? <==> EndsInError(r)
    ensures out.NilDereference? <==> EndsInNil(r)
    ensures out.Waiting? <==> KeepsWaiting(r)
    // the job that is registered if the call takes effect
    ensures SendsJob(JobOf(w, scope.name), scope.name, userData, r)
    // and where that leaves the reconcile
    ensures out.Machine? ==> Some(out.deployment) == r.deployment
    ensures out.Machine? ==> Holds(w, scope, Reporting(scope, before, scope.nomadMachine, out.deployment))
    ensures out.DeployError? ==>
      Holds(w, scope, P.DeployFailed(P.Flight(before, scope.nomadMachine, None, P.ReadOwners)))
    ensures out.NilDereference? ==> At(w, scope, before, None, P.Close(P.Panicked))
    ensures out.Waiting? ==> At(w, scope, before, None, P.QueryEval(r.job.evalID))
  {
    hide Execution, P.Report, P.Enabled, P.NextFlight, P.Step, P.DnsStep, Reporting, Evaluation.Poll, MacAddress.MacOf;
    hide WithSlot;
    var domain := r.owners.ownDomain;
    if domain.None? {
      domain := r.owners.machineDomain;
    }
    var mac := MacAddress.GetMacAddress(P.OctetsOf(scope.name));
    if domain.None? {
      return NilDereference;
    }
    ghost var f := P.Flight(before, scope.nomadMachine, None, P.RegisterJob(domain.value, userData));
    Pause(w, scope, f);
    SubmitJob(w, scope, f, Job(scope.name, domain.value, mac, userData), r.job);
    if !r.job.JobAccepted? {
      return DeployError;
    } else if r.job.evalID == "" {
      return NilDereference;
    }
    var done, id := GetDeploymentIDFromEval(w, scope, before, r.job.evalID, r.evals);
    if !done {
      return Waiting;
    }
    assert id == EvalID(r.evals);
    if id.None? {
      return DeployError;
    }
    GetDeployment(w, scope, before, id.value, r);
    return if r.deployment.Some? then Machine(r.deployment.value) else NilDereference;
  }

  /** The Consul entry follows the machine: there while it runs, gone once it does not or is being deleted. */
  method ReconcileDNSAttachment(w: Stores, scope: Scope, ghost before: NomadMachine,
                                ghost deployment: Option<Deployment>, r: Replies)
      returns (ok: bool)
    requires At(w, scope, before, deployment, P.DnsStep(scope.nomadMachine, scope.info))
    modifies w, scope
    ensures Continues(old(w.states), old(w.acts), w)
    ensures JobOf(w, scope.name) == old(JobOf(w, scope.name))
    ensures var nm := old(scope.nomadMachine);
      var attach := !nm.deleting && nm.deploymentStatus in {Some("running"), Some("successful")};
      && (ok <==> (scope.info.controlPlane ==> (if attach then r.register else r.deregister).Succeeded?))
      && At(w, scope, before, deployment,
            if !ok then P.Close(P.Failed) else if nm.deleting then P.DeregisterJob else P.CheckApiServer)
      && scope.nomadMachine == (if !ok || !scope.info.controlPlane then nm else nm.(
           dnsAttached := attach,
           dns := if attach then IsTrue else IsFalse("DNSAttachPending")))
      && (ok && scope.info.controlPlane ==>
           Get(w.sys.services, scope.name) ==
             (if attach then Some(Service(scope.info.cluster, scope.name, ["api-server"], scope.name + ".sc", 6443))
              else None))
  {
    hide Execution, P.Step, WithSlot;
    if scope.nomadMachine.deploymentStatus.Some? {
      StateSetsCoincide(scope.nomadMachine.deploymentStatus.value);
    }
    if !scope.info.controlPlane {
      return true;
    }
    ghost var f := P.Flight(before, scope.nomadMachine, deployment, P.DnsStep(scope.nomadMachine, scope.info));
    Pause(w, scope, f);
    if scope.nomadMachine.deleting || !scope.IsRunning() {
      RemoveService(w, scope, f, scope.name, r.deregister);
      if !r.deregister.Succeeded? {
        return false;
      }
      scope.MarkDNS(false, IsFalse(DNS_ATTACH_PENDING));
      return true;
    }
    var service := Service(scope.info.cluster, scope.name, ["api-server"], P.DnsName(scope.name), 6443);
    SubmitService(w, scope, f, service, r.register);
    if !r.register.Succeeded? {
      return false;
    }
    scope.MarkDNS(true, IsTrue);
    return true;
  }

  method ReconcileDelete(w: Stores, scope: Scope, ghost before: NomadMachine, r: Replies) returns (res: P.Result)
    requires scope.nomadMachine == before && before.deleting
    requires At(w, scope, before, None, P.DnsStep(before, scope.info))
    modifies w, scope
    ensures Continues(old(w.states), old(w.acts), w)
    ensures At(w, scope, before, None, P.Close(res))
    ensures DeleteReturn(res, scope.info, r) && DeleteEdit(before, scope.nomadMachine, scope.info, r)
    ensures res.Done? ==> JobOf(w, scope.name).None?
    ensures res.Done? <==> !scope.nomadMachine.finalizer
  {
    hide Execution, P.JobFor, P.ServiceFor, P.Step, WithSlot;
    assert before.finalizer by {
      FinalizerWhileDeleting(w, scope, before);
    }
    var ok := ReconcileDNSAttachment(w, scope, before, None, r);
    if !ok {
      return P.Failed;
    }
    ghost var f := P.Flight(before, scope.nomadMachine, None, P.DeregisterJob);
    Pause(w, scope, f);
    ReleaseMachine(w, scope, f, scope.name, r.release);
    if !r.release.Succeeded? {
      return P.Failed;
    }
    scope.MarkDeployed(IsFalse(DELETED));
    scope.RemoveFinalizer();
    return P.Done;
  }

  lemma FinalizerWhileDeleting(w: Stores, scope: Scope, before: NomadMachine)
    requires w.Valid() && scope.name in w.sys.flights && w.sys.flights[scope.name].before == before
    ensures before.deleting ==> before.finalizer
  {
    Runs.StateInv(w.states, w.acts, |w.acts|, scope.name);
    assert Slot(w.sys, scope.name).flight.Some?;
  }

  /** Writes the provider id to the workload cluster's node, if it differs. */
  method SetNodeProviderID(w: Stores, scope: Scope, ghost before: NomadMachine, ghost deployment: Option<Deployment>,
                           r: Replies)
      returns (ok: bool, ghost node: Option<string>)
    requires At(w, scope, before, deployment, P.PatchNode)
    modifies w
    ensures Continues(old(w.states), old(w.acts), w)
    ensures At(w, scope, before, deployment, P.Close(if ok then P.Done else P.Requeue))
    ensures NodeLookedUp(w.states, w.acts, |w.acts| - 1, scope.name, node)
    ensures ok <==> SetsNode(P.ProviderIdOf(scope.nomadMachine), node, r)
    // success: the node now carries the provider id
    ensures ok ==> Get(w.sys.nodes, scope.name) == Some(P.ProviderIdOf(scope.nomadMachine))
    // it is written exactly if the patch takes effect, which is sent to a node found without it
    ensures Get(w.sys.nodes, scope.name) ==
      if node.Some? && !r.node.NodeLookupFailed? && Took(r.node.patch) then Some(P.ProviderIdOf(scope.nomadMachine))
      else node
    ensures JobOf(w, scope.name) == old(JobOf(w, scope.name))
  {
    hide Execution, WithSlot;
    var n := scope.name;
    ghost var f := P.Flight(before, scope.nomadMachine, deployment, P.PatchNode);
    Pause(w, scope, f);
    node := Get(w.sys.nodes, n);
    var act := P.NodeUnavailable;
    if !r.node.NodeLookupFailed? && n in w.sys.nodes {
      if w.sys.nodes[n] == P.ProviderIdOf(scope.nomadMachine) {
        act, ok := P.NodePatch(false, false), true;
      } else {
        act, ok := P.NodePatch(Took(r.node.patch), r.node.patch.Succeeded?), r.node.patch.Succeeded?;
      }
    } else {
      ok := false;
    }
    Advance(w, scope, f, P.NodePatched(act));
    assert Slot(w.sys, n).node == Get(w.sys.nodes, n);
  }

  /** Goes on to the node only if the API server is online and the machine operational. */
  method CheckAPIServer(w: Stores, scope: Scope, ghost before: NomadMachine, ghost d: Deployment, r: Replies)
      returns (proceed: bool)
    requires At(w, scope, before, Some(d), P.CheckApiServer)
    modifies w
    ensures Continues(old(w.states), old(w.acts), w) && JobOf(w, scope.name) == old(JobOf(w, scope.name))
    ensures proceed <==> r.online && scope.nomadMachine.deploymentStatus in {Some("running"), Some("successful")}
    ensures At(w, scope, before, Some(d), if proceed then P.PatchNode else P.Close(P.Requeue))
  {
    hide Execution, P.Step, WithSlot;
    if scope.nomadMachine.deploymentStatus.Some? {
      StateSetsCoincide(scope.nomadMachine.deploymentStatus.value);
    }
    ghost var f := P.Flight(before, scope.nomadMachine, Some(d), P.CheckApiServer);
    Pause(w, scope, f);
    Advance(w, scope, f, P.ApiServerChecked(r.online));
    proceed := r.online && scope.IsOperational();
  }

  /** DNS, the API server and the node, once the deployment has been reported. */
  method ReconcileReported(w: Stores, scope: Scope, ghost before: NomadMachine, ghost d: Deployment, r: Replies)
      returns (res: P.Result, ghost node: Option<string>)
    requires !before.deleting && ReportEdit(before, scope.nomadMachine, scope.name, d)
    requires At(w, scope, before, Some(d),
      if d.status in KNOWN_STATES then P.DnsStep(scope.nomadMachine, scope.info) else P.CheckApiServer)
    modifies w, scope
    ensures Continues(old(w.states), old(w.acts), w) && JobOf(w, scope.name) == old(JobOf(w, scope.name))
    ensures At(w, scope, before, Some(d), P.Close(res))
    ensures ReportedReturn(res, d, scope.info, r, node)
    ensures DeploymentEdit(before, scope.nomadMachine, scope.name, scope.info, d, r)
    ensures ReachesNode(d, scope.info, r) ==> NodeLookedUp(w.states, w.acts, |w.acts| - 1, scope.name, node)
  {
    hide Execution, P.JobFor, P.ServiceFor, ProviderId.Format, NodeLookedUp, WithSlot;
    StateSetsCoincide(d.status);
    node := None;
    if scope.IsInKnownState() {
      var ok := ReconcileDNSAttachment(w, scope, before, Some(d), r);
      if !ok {
        return P.Failed, node;
      }
    }
    var proceed := CheckAPIServer(w, scope, before, d, r);
    if !proceed {
      return P.Requeue, node;
    }
    var ok;
    ok, node := SetNodeProviderID(w, scope, before, Some(d), r);
    res := if ok then P.Done else P.Requeue;
  }

  /** Copies what Nomad reports about the deployment into the object. */
  method ReportDeployment(scope: Scope, d: Deployment)
    modifies scope
    ensures scope.nomadMachine == P.Report(old(scope.nomadMachine), scope.name, d)
    ensures ReportEdit(old(scope.nomadMachine), scope.nomadMachine, scope.name, d)
    // Ready means success, and no failure is forgotten
    ensures Safety.StatusConsistent(scope.nomadMachine)
    ensures old(scope.nomadMachine).failureReason.Some? ==> scope.nomadMachine.failureReason.Some?
  {
    hide Quote;
    StateSetsCoincide(d.status);
    scope.SetProviderID(d.jobID, d.id);
    scope.SetDeploymentStatus(d.status, d.description);
    if d.status == STATE_RUNNING {
      scope.SetReady(false);
      scope.MarkDeployed(IsFalse(MACHINE_DEPLOYING));
    } else if d.status == STATE_SUCCESSFUL {
      scope.SetReady(true);
      scope.MarkDeployed(IsTrue);
    } else {
      scope.SetReady(false);
      scope.SetFailure(UPDATE_MACHINE_ERROR, P.UndefinedState(d.status));
      scope.MarkDeployed(IsUnknown);
    }
    if scope.IsInKnownState() {
      scope.SetAddresses([P.DnsName(scope.name)]);
    }
  }

  /** The part of reconcileNormal that deploys the machine and follows its deployment. */
  method ReconcileDeployment(w: Stores, scope: Scope, ghost before: NomadMachine, userData: string, r: Replies)
      returns (res: Option<P.Result>, ghost deployment: Option<Deployment>, ghost node: Option<string>)
    requires scope.nomadMachine == before && !before.deleting && r.owners.Found?
    requires Holds(w, scope,
      P.StartDeploy(P.Flight(before, before, None, P.ReadOwners), P.FailureDomain(r.owners), userData))
    modifies w, scope
    ensures Continues(old(w.states), old(w.acts), w)
    ensures DeploymentReturn(res, scope.info, r, node)
    ensures At(w, scope, before, deployment, if res.Some? then P.Close(res.value) else P.QueryEval(r.job.evalID))
    ensures deployment == if EndsInMachine(r) then r.deployment else None
    ensures DeployEdit(before, scope.nomadMachine, scope.name, scope.info, r)
    ensures SendsJob(JobOf(w, scope.name), scope.name, userData, r)
    ensures res == Some(P.Panicked) <==> EndsInNil(r)
    ensures EndsInMachine(r) && ReachesNode(r.deployment.value, scope.info, r) ==>
      NodeLookedUp(w.states, w.acts, |w.acts| - 1, scope.name, node)
  {
    hide Execution, P.JobFor, P.ServiceFor, P.Report, NodeLookedUp, FailsToAttach, ReachesNode, EvalID, SendsJob;
    hide ReportEdit, DeploymentEdit, WithSlot;
    node := None;
    var out := DeployMachine(w, scope, before, userData, r);
    match out {
      case Waiting => return None, None, node;
      case NilDereference => return Some(P.Panicked), None, node;
      case DeployError =>
        scope.MarkDeployed(IsFalse(MACHINE_DEPLOY_FAILED));
        return Some(P.Failed), None, node;
      case Machine(m) =>
        deployment := Some(m);
        Safety.ReportIsConsistent(before, scope.name, m);
        ReportDeployment(scope, m);
        var result;
        result, node := ReconcileReported(w, scope, before, m, r);
        res := Some(result);
    }
  }

  method ReconcileNormal(w: Stores, scope: Scope, ghost before: NomadMachine, infraReady: bool, r: Replies)
      returns (res: Option<P.Result>, ghost deployment: Option<Deployment>, ghost node: Option<string>)
    requires scope.nomadMachine == before && !before.deleting && r.owners.Found?
    requires Holds(w, scope, P.Enter(P.Flight(before, before, None, P.ReadOwners), scope.info, infraReady, r.owners))
    modifies w, scope
    ensures Continues(old(w.states), old(w.acts), w)
    ensures NormalReturn(res, before, scope.info, infraReady, r, node)
    ensures At(w, scope, before, deployment, if res.Some? then P.Close(res.value) else P.QueryEval(r.job.evalID))
    ensures deployment == if Deploys(before, infraReady, r.owners) && EndsInMachine(r) then r.deployment else None
    ensures NormalEdit(before, scope.nomadMachine, scope.name, scope.info, infraReady, r)
    ensures Deploys(before, infraReady, r.owners) ==>
      SendsJob(JobOf(w, scope.name), scope.name, r.owners.bootstrap.userData, r)
    ensures res == Some(P.Panicked) <==> Deploys(before, infraReady, r.owners) && EndsInNil(r)
    ensures deployment.Some? && ReachesNode(r.deployment.value, scope.info, r) ==>
      NodeLookedUp(w.states, w.acts, |w.acts| - 1, scope.name, node)
  {
    hide Execution, P.JobFor, P.ServiceFor, P.StartDeploy, NodeLookedUp, ReachesNode, DeploymentReturn;
    hide EndsInMachine, EndsInNil, WithSlot;
    deployment, node := None, None;
    if !scope.nomadMachine.finalizer {
      scope.AddFinalizer();
      return Some(P.Done), None, node;
    }
    if !infraReady {
      scope.MarkDeployed(IsFalse(WAITING_FOR_CLUSTER_INFRASTRUCTURE));
      return Some(P.Done), None, node;
    }
    if r.owners.bootstrap.NoSecretName? {
      scope.MarkDeployed(IsFalse(WAITING_FOR_BOOTSTRAP_DATA));
      return Some(P.Done), None, node;
    }
    if r.owners.bootstrap.Unreadable? {
      scope.MarkDeployed(IsFalse(MACHINE_DEPLOY_FAILED));
      return Some(P.Failed), None, node;
    }
    res, deployment, node := ReconcileDeployment(w, scope, before, r.owners.bootstrap.userData, r);
  }

  /** The reads before the scope is opened; `stop` is the return of a reconcile that goes no further. */
  method ReadOwners(w: Stores, n: Name, info: P.MachineInfo, before: NomadMachine, r: Replies)
      returns (stop: Option<P.Result>, infraReady: bool)
    requires w.Valid() && n in w.sys.fleet && w.sys.fleet[n] == info
    requires Get(w.sys.flights, n) == Some(P.Flight(before, before, None, P.ReadOwners))
    modifies w
    ensures Continues(old(w.states), old(w.acts), w) && w.Valid()
    ensures w.sys.fleet == old(w.sys).fleet
    ensures |w.states| == |w.acts| + 1 && |w.acts| > |old(w.acts)|
    ensures w.acts[|w.acts| - 1] == OnMachine(n, P.Read(r.owners))
    // the scope is opened exactly if everything is found
    ensures var s := w.states[|w.acts| - 1];
      && (stop.None? <==> r.owners.Found? && info.cluster in s.nomadClusters)
      && (infraReady <==> info.cluster in s.infraReady)
    ensures stop.Some? ==> n !in w.sys.flights && stop.value == if r.owners.OwnerLookupFailed? then P.Failed else P.Done
    ensures stop.None? ==>
      Get(w.sys.flights, n) == Some(P.Enter(P.Flight(before, before, None, P.ReadOwners), info, infraReady, r.owners))
  {
    hide Execution, P.JobFor, P.ServiceFor, P.Report, P.Merge, WithSlot;
    w.Yield(n);
    var cluster := ViewOf(w.sys, info.cluster);
    w.Call(n, P.Read(r.owners));
    infraReady := cluster.infraReady;
    match r.owners {
      case OwnerLookupFailed => stop := Some(P.Failed);
      case NoOwner => stop := Some(P.Done);
      case NoCluster => stop := Some(P.Done);
      case Paused => stop := Some(P.Done);
      case Found(_, _, _) => stop := if cluster.known then None else Some(P.Done);
    }
    assert n in w.sys.flights ==> Slot(w.sys, n).flight.Some?;
  }

  method FetchMachine(w: Stores, n: Name)
    requires w.Valid() && n in w.sys.fleet && n in w.sys.objects && n !in w.sys.flights
    modifies w
    ensures Continues(old(w.states), old(w.acts), w) && w.Valid()
    ensures w.sys.fleet == old(w.sys).fleet
    ensures Get(w.sys.flights, n) == Some(P.Flight(old(w.sys).objects[n], old(w.sys).objects[n], None, P.ReadOwners))
  {
    hide Execution, WithSlot;
    w.Call(n, P.Fetch);
    assert Slot(w.sys, n).flight == Get(w.sys.flights, n);
  }

  /** What a reconcile came across: the steps at which it read the owners and looked up the node, the
      provider id it found there, and whether its Close reported success. */
  datatype Trace = Trace(read: nat, lookup: int, node: Option<string>, closed: bool)

  function Stop(end: P.Flight): Option<P.Result> {
    if end.pc.Close? then Some(end.pc.result) else None
  }

  /** How the reconcile `end` comes to its Close, or to its wait for the evaluation, and with which edits. */
  ghost predicate EndsAs(end: P.Flight, n: Name, info: P.MachineInfo, infraReady: bool, r: Replies,
                         node: Option<string>)
    requires r.owners.Found?
  {
    if end.before.deleting then
      Stop(end).Some? && DeleteReturn(Stop(end).value, info, r) && DeleteEdit(end.before, end.local, info, r)
    else
      && NormalReturn(Stop(end), end.before, info, infraReady, r, node)
      && NormalEdit(end.before, end.local, n, info, infraReady, r)
  }

  /** Which job a reconcile leaves registered, if it gets to register one. */
  ghost predicate LeavesJob(job: Option<Job>, before: NomadMachine, n: Name, infraReady: bool, r: Replies) {
    !before.deleting && Deploys(before, infraReady, r.owners) ==>
      SendsJob(job, n, r.owners.bootstrap.userData, r)
  }

  /** The reconcile once its scope is open, up to its Close. */
  method ReconcileScope(w: Stores, scope: Scope, before: NomadMachine, infraReady: bool, r: Replies)
      returns (res: Option<P.Result>, ghost end: P.Flight, ghost node: Option<string>)
    requires scope.nomadMachine == before && r.owners.Found?
    requires Holds(w, scope, P.Enter(P.Flight(before, before, None, P.ReadOwners), scope.info, infraReady, r.owners))
    modifies w, scope
    ensures Continues(old(w.states), old(w.acts), w)
    ensures Holds(w, scope, end) && end.before == before && end.local == scope.nomadMachine
    ensures if res.Some? then end.pc == P.Close(res.value) else end.pc.QueryEval?
    ensures EndsAs(end, scope.name, scope.info, infraReady, r, node)
    ensures LeavesJob(JobOf(w, scope.name), before, scope.name, infraReady, r)
    ensures end.deployment.Some? && ReachesNode(end.deployment.value, scope.info, r) ==>
      NodeLookedUp(w.states, w.acts, |w.acts| - 1, scope.name, node)
    ensures res == Some(P.Panicked) <==> !before.deleting && Deploys(before, infraReady, r.owners) && EndsInNil(r)
    ensures before.deleting && res == Some(P.Done) ==> !scope.nomadMachine.finalizer
  {
    hide Execution, P.JobFor, P.ServiceFor, NormalReturn, NormalEdit, DeleteEdit, SendsJob, ReachesNode, NodeLookedUp;
    hide Deploys, EndsInNil, EndsInMachine, WithSlot;
    ghost var deployment := None;
    node := None;
    if scope.nomadMachine.deleting {
      var result := ReconcileDelete(w, scope, before, r);
      res := Some(result);
    } else {
      res, deployment, node := ReconcileNormal(w, scope, before, infraReady, r);
      KeepsWaitingFor(res, before, scope.info, infraReady, r, node);
    }
    end := P.Flight(before, scope.nomadMachine, deployment,
                    if res.Some? then P.Close(res.value) else P.QueryEval(r.job.evalID));
  }

  lemma KeepsWaitingFor(res: Option<P.Result>, before: NomadMachine, info: P.MachineInfo, infraReady: bool, r: Replies,
                        node: Option<string>)
    requires r.owners.Found? && NormalReturn(res, before, info, infraReady, r, node)
    ensures res.None? ==> r.job.JobAccepted?
  {
  }

  /** What a reconcile that returns without error has achieved: nothing is left of a machine that was
      being deleted; node, object and deployment agree on one that was deployed. */
  ghost predicate Achieved(s: Sys, n: Name, end: P.Flight) {
    && (end.before.deleting ==> n !in s.objects && n !in s.jobs && n !in s.services)
    && (end.deployment.Some? ==> Safety.Settled(Slot(s, n), end.deployment.value))
  }

  /** The last step was a Close: it reports success exactly if its patch does, and there is an object to patch or
      nothing to send; a patch that takes effect stores the edit, one that does not changes nothing. */
  ghost predicate Closes(w: Stores, n: Name, before: NomadMachine, local: NomadMachine, r: Replies, closed: bool)
    reads w
  {
    && |w.states| == |w.acts| + 1 && w.acts != []
    && var s := w.states[|w.acts| - 1];
       && (closed <==> r.close.Succeeded? && (n in s.objects || local == before))
       && Get(w.sys.objects, n) ==
            if Took(r.close) && n in s.objects then Safety.Stored(before, local, s.objects[n]) else Get(s.objects, n)
  }

  /** The same with the deferred Close, unless it still waits for its evaluation. */
  method ReconcileAndClose(w: Stores, scope: Scope, before: NomadMachine, infraReady: bool, r: Replies)
      returns (res: Option<P.Result>, ghost end: P.Flight, ghost t: Trace)
    requires scope.nomadMachine == before && r.owners.Found?
    requires Holds(w, scope, P.Enter(P.Flight(before, before, None, P.ReadOwners), scope.info, infraReady, r.owners))
    modifies w, scope
    ensures w.Valid() && Continues(old(w.states), old(w.acts), w)
    ensures end.before == before && EndsAs(end, scope.name, scope.info, infraReady, r, t.node)
    ensures LeavesJob(JobOf(w, scope.name), before, scope.name, infraReady, r)
    ensures end.deployment.Some? && ReachesNode(end.deployment.value, scope.info, r) ==>
      NodeLookedUp(w.states, w.acts, t.lookup, scope.name, t.node)
    ensures res.None? ==> end.pc.QueryEval? && Get(w.sys.flights, scope.name) == Some(end)
    ensures res.Some? ==>
      && scope.name !in w.sys.flights
      && end.pc.Close? && res.value == Returned(end.pc.result, t.closed)
      && Closes(w, scope.name, before, end.local, r, t.closed)
    ensures res == Some(P.Panicked) <==> !before.deleting && Deploys(before, infraReady, r.owners) && EndsInNil(r)
    ensures res == Some(P.Done) ==> Achieved(w.sys, scope.name, end)
  {
    hide Execution, P.Enter, EndsAs, LeavesJob, Deploys, EndsInNil, ReachesNode, Closes, Safety.Settled, WithSlot;
    ghost var node;
    res, end, node := ReconcileScope(w, scope, before, infraReady, r);
    t := Trace(0, |w.acts| - 1, node, false);
    if res.Some? {
      var result, closed := CloseScope(w, scope, before, end.deployment, res.value, r);
      res, t := Some(result), t.(closed := closed);
    }
  }

  /** One call of the reconciler for machine n, from the first read to the deferred Close. `end` is
      the reconcile as it came to its Close, and None if it never opened a scope. The result is None
      for a reconcile that still waits for its evaluation. */
  method Reconcile(w: Stores, n: Name, r: Replies)
      returns (res: Option<P.Result>, ghost end: Option<P.Flight>, ghost t: Trace)
    requires w.Valid() && n in w.sys.fleet && n !in w.sys.flights
    modifies w
    ensures w.Valid() && Continues(old(w.states), old(w.acts), w)
    ensures res.None? ==> end.Some? && end.value.pc.QueryEval? && Get(w.sys.flights, n) == end
    ensures res.Some? ==> n !in w.sys.flights
    // no scope
    ensures end.None? ==>
      var failed := !r.fetched || (n in old(w.sys).objects && r.owners.OwnerLookupFailed?);
      res == Some(if failed then P.Failed else P.Done)
    ensures !r.fetched || n !in old(w.sys).objects ==> end.None? && unchanged(w)
    // a scope exactly if everything was found, and then the end and the edits that the replies determine
    ensures r.fetched && n in old(w.sys).objects ==>
      && |w.states| == |w.acts| + 1 && |old(w.acts)| <= t.read < |w.acts|
      && w.acts[t.read] == OnMachine(n, P.Read(r.owners))
      && var info, s := old(w.sys).fleet[n], w.states[t.read];
         && (end.Some? <==> r.owners.Found? && info.cluster in s.nomadClusters)
         && (end.Some? ==>
              && end.value.before == old(w.sys).objects[n]
              && EndsAs(end.value, n, info, info.cluster in s.infraReady, r, t.node)
              && LeavesJob(JobOf(w, n), end.value.before, n, info.cluster in s.infraReady, r)
              && (end.value.deployment.Some? && ReachesNode(end.value.deployment.value, info, r) ==>
                   NodeLookedUp(w.states, w.acts, t.lookup, n, t.node))
              // a panic exactly if one of the three nil dereferences is reached
              && (res == Some(P.Panicked) <==>
                   !end.value.before.deleting && EndsInNil(r) &&
                   Deploys(end.value.before, info.cluster in s.infraReady, r.owners)))
    // an error of Close is returned unless there is a failure already
    ensures end.Some? && res.Some? ==>
      && end.value.pc.Close? && res.value == Returned(end.value.pc.result, t.closed)
      && Closes(w, n, end.value.before, end.value.local, r, t.closed)
    ensures end.Some? && res == Some(P.Done) ==> Achieved(w.sys, n, end.value)
  {
    hide Execution, P.Enter, EndsAs, LeavesJob, Deploys, EndsInNil, ReachesNode, NodeLookedUp, Achieved, Returned;
    hide Closes, WithSlot;
    t := Trace(0, 0, None, false);
    if !r.fetched {
      return Some(P.Failed), None, t;
    }
    if n !in w.sys.objects {
      return Some(P.Done), None, t;
    }
    var info, before := w.sys.fleet[n], w.sys.objects[n];
    FetchMachine(w, n);
    var stop, infraReady := ReadOwners(w, n, info, before, r);
    t := t.(read := |w.acts| - 1);
    if stop.Some? {
      return stop, None, t;
    }
    var scope := new Scope(n, info, before);
    ghost var read, states, acts := t.read, w.states, w.acts;
    ghost var f;
    res, f, t := ReconcileAndClose(w, scope, before, infraReady, r);
    end, t := Some(f), t.(read := read);
    w.Shape();
    assert w.states[read] == states[read] && w.acts[read] == acts[read];
  }

  /** Persists the scope's changes; its own error is returned unless there is one already. */
  method CloseScope(w: Stores, scope: Scope, before: NomadMachine, ghost deployment: Option<Deployment>, res: P.Result,
                    r: Replies)
      returns (res': P.Result, closed: bool)
    requires At(w, scope, before, deployment, P.Close(res))
    requires before.deleting && res.Done? ==> !scope.nomadMachine.finalizer
    modifies w
    ensures Continues(old(w.states), old(w.acts), w)
    ensures w.Valid() && scope.name !in w.sys.flights
    ensures JobOf(w, scope.name) == old(JobOf(w, scope.name))
    ensures res' == Returned(res, closed)
    ensures Closes(w, scope.name, before, scope.nomadMachine, r, closed)
    ensures res'.Done? ==> Achieved(w.sys, scope.name, P.Flight(before, scope.nomadMachine, deployment, P.Close(res)))
  {
    hide Execution, Closes, Achieved;
    Pause(w, scope, P.Flight(before, scope.nomadMachine, deployment, P.Close(res)));
    closed := PatchObject(w, scope, before, deployment, res, r);
    res' := res;
    if !closed && (res.Done? || res.Requeue?) {
      res' := P.Failed;
    }
  }

  method PatchObject(w: Stores, scope: Scope, before: NomadMachine, ghost deployment: Option<Deployment>,
                     ghost res: P.Result, r: Replies)
      returns (closed: bool)
    requires At(w, scope, before, deployment, P.Close(res))
    requires before.deleting && res.Done? ==> !scope.nomadMachine.finalizer
    modifies w
    ensures Continues(old(w.states), old(w.acts), w)
    ensures w.Valid() && scope.name !in w.sys.flights
    ensures JobOf(w, scope.name) == old(JobOf(w, scope.name))
    ensures Closes(w, scope.name, before, scope.nomadMachine, r, closed)
    ensures closed && res.Done? ==>
      Achieved(w.sys, scope.name, P.Flight(before, scope.nomadMachine, deployment, P.Close(res)))
  {
    hide Execution, P.Step, Safety.SlotInv, Safety.Settled, Safety.Stored, WithSlot;
    var n := scope.name;
    var took := Took(r.close) && n in w.sys.objects;
    closed := r.close.Succeeded? && (took || scope.nomadMachine == before);
    ghost var v, view := Slot(w.sys, n), ViewOf(w.sys, scope.info.cluster);
    w.Reached();
    SlotInvOf(w.sys, n);
    Safety.ClosedMachine(n, scope.info, view, v, took, closed);
    Safety.OnlyJobCallsTouchJobs(n, scope.info, view, v, P.Closed(took, closed));
    SlotParts(w.sys, n);
    w.Call(n, P.Closed(took, closed));
    SlotParts(w.sys, n);
  }
}
