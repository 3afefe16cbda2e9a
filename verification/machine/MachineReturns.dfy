/** What a machine's reconcile returns, and what it makes of the object, for everything it may hear
    from outside: written out, without reference to the step system. */
module MachineReturns {
  import opened Common
  import opened Types
  import opened System
  import P = Protocol
  import Evaluation
  import MacAddress

  /** How one remote call goes. */
  datatype Reply = Lost | TookButFailed | Succeeded

  predicate Took(r: Reply) {
    !r.Lost?
  }

  datatype JobReply = JobLost | JobTookButFailed | JobAccepted(evalID: string)

  datatype NodeReply = NodeLookupFailed | NodeFound(patch: Reply)

  /** Everything a reconcile hears from outside the stores; `fetched`: its first read succeeds. */
  datatype Replies = Replies(
    fetched: bool,
    owners: P.Owners,
    job: JobReply,
    evals: seq<Evaluation.Reply>,
    deployment: Option<Deployment>,
    register: Reply,
    online: bool,
    node: NodeReply,
    deregister: Reply,
    release: Reply,
    close: Reply)

  // ------------------------------------------------------------------- the deployment

  /** Gets as far as DeployMachine. */
  predicate Deploys(before: NomadMachine, infraReady: bool, o: P.Owners) {
    before.finalizer && infraReady && o.Found? && o.bootstrap.Data?
  }

  /** The failure domain is the NomadMachine's own, or else the Machine's. */
  predicate NoDomain(o: P.Owners)
    requires o.Found?
  {
    o.ownDomain.None? && o.machineDomain.None?
  }

  function DomainOf(o: P.Owners): string
    requires o.Found? && !NoDomain(o)
  {
    if o.ownDomain.Some? then o.ownDomain.value else o.machineDomain.value
  }

  /** If DeployMachine gets its job through to Nomad, this is the job. */
  ghost predicate SendsJob(job: Option<Job>, n: Name, userData: string, r: Replies)
    requires r.owners.Found?
  {
    !NoDomain(r.owners) && !r.job.JobLost? ==>
      job == Some(Job(n, DomainOf(r.owners), MacAddress.MacOf(P.OctetsOf(n)), userData))
  }

  /** The deployment id that the evaluation ends with, if it completes. */
  function EvalID(evals: seq<Evaluation.Reply>): Option<string> {
    match Evaluation.Poll(evals)
    case None => None
    case Some((id, _)) => id
  }

  /** The nil dereferences: no failure domain, no evaluation id, no deployment. */
  predicate EndsInNil(r: Replies)
    requires r.owners.Found?
  {
    || NoDomain(r.owners)
    || (r.job.JobAccepted? && (r.job.evalID == "" || (EvalID(r.evals).Some? && r.deployment.None?)))
  }

  predicate EndsInError(r: Replies)
    requires r.owners.Found?
  {
    && !NoDomain(r.owners)
    && (r.job.JobAccepted? ==> r.job.evalID != "" && Evaluation.Poll(r.evals).Some? && EvalID(r.evals).None?)
  }

  predicate EndsInMachine(r: Replies)
    requires r.owners.Found?
  {
    && !NoDomain(r.owners)
    && r.job.JobAccepted? && r.job.evalID != "" && EvalID(r.evals).Some? && r.deployment.Some?
  }

  /** The evaluation is still pending after the last answer. */
  predicate KeepsWaiting(r: Replies)
    requires r.owners.Found?
  {
    && !NoDomain(r.owners)
    && r.job.JobAccepted? && r.job.evalID != "" && Evaluation.Poll(r.evals).None?
  }

  // ---------------------------------------------------------------------- the returns

  predicate Up(status: string) {
    status == "running" || status == "successful"
  }

  predicate FailsToAttach(d: Deployment, info: P.MachineInfo, r: Replies) {
    Up(d.status) && info.controlPlane && !r.register.Succeeded?
  }

  predicate ReachesNode(d: Deployment, info: P.MachineInfo, r: Replies) {
    !FailsToAttach(d, info, r) && r.online && Up(d.status)
  }

  /** `node` is the provider id that the lookup finds on the node. */
  predicate SetsNode(providerID: string, node: Option<string>, r: Replies) {
    node.Some? && !r.node.NodeLookupFailed? && (node.value == providerID || r.node.patch.Succeeded?)
  }

  /** The last call was the one on the node, and found it with provider id `node`. */
  ghost predicate NodeLookedUp(states: seq<Sys>, acts: seq<Action>, i: int, n: Name, node: Option<string>) {
    && 0 <= i < |acts| && i < |states|
    && acts[i].OnMachine? && acts[i].n == n && acts[i].act.NodePatched?
    && node == Get(states[i].nodes, n)
  }

  /** How the part after a reported deployment d returns. */
  ghost predicate ReportedReturn(res: P.Result, d: Deployment, info: P.MachineInfo, r: Replies, node: Option<string>) {
    && !res.Panicked?
    && (res.Failed? <==> FailsToAttach(d, info, r))
    && (res.Done? <==> ReachesNode(d, info, r) && SetsNode("nomad:///" + d.jobID + "/" + d.id, node, r))
  }

  /** How a deployment returns; None if it still waits for the evaluation. */
  ghost predicate DeploymentReturn(res: Option<P.Result>, info: P.MachineInfo, r: Replies, node: Option<string>)
    requires r.owners.Found?
  {
    && (res.None? <==> KeepsWaiting(r))
    && (res == Some(P.Panicked) <==> EndsInNil(r))
    && (EndsInError(r) ==> res == Some(P.Failed))
    && (EndsInMachine(r) ==> res.Some? && ReportedReturn(res.value, r.deployment.value, info, r, node))
  }

  /** How a reconcile of a live machine returns. */
  ghost predicate NormalReturn(res: Option<P.Result>, before: NomadMachine, info: P.MachineInfo, infraReady: bool,
                               r: Replies, node: Option<string>)
    requires r.owners.Found?
  {
    if Deploys(before, infraReady, r.owners) then DeploymentReturn(res, info, r, node)
    else res == Some(if before.finalizer && infraReady && r.owners.bootstrap.Unreadable? then P.Failed else P.Done)
  }

  /** How a reconcile of a machine being deleted returns. */
  predicate DeleteReturn(res: P.Result, info: P.MachineInfo, r: Replies) {
    res == if (info.controlPlane ==> r.deregister.Succeeded?) && r.release.Succeeded? then P.Done else P.Failed
  }

  // ------------------------------------------------------------------------ the edits

  /** The condition that goes with a deployment's status. */
  function DeployedCondition(status: string): Condition {
    if status == "running" then IsFalse("MachineDeploying")
    else if status == "successful" then IsTrue
    else IsUnknown
  }

  /** The object after deployment d has been reported for it. */
  predicate ReportEdit(before: NomadMachine, local: NomadMachine, n: Name, d: Deployment) {
    local == before.(
      providerID := Some("nomad:///" + d.jobID + "/" + d.id),
      deploymentStatus := Some(d.status),
      statusDescription := Some(d.description),
      ready := d.status == "successful",
      deployed := DeployedCondition(d.status),
      addresses := if Up(d.status) then [n + ".sc"] else before.addresses,
      failureReason := if Up(d.status) then before.failureReason else Some("UpdateError"),
      failureMessage :=
        if Up(d.status) then before.failureMessage
        else Some("Nomad m state " + Quote(d.status) + " is undefined"))
  }

  /** And after its Consul entry has been dealt with. */
  predicate DeploymentEdit(before: NomadMachine, local: NomadMachine, n: Name, info: P.MachineInfo, d: Deployment,
                           r: Replies)
  {
    if Up(d.status) && info.controlPlane && r.register.Succeeded?
    then local.dnsAttached && local.dns.IsTrue? &&
         ReportEdit(before, local.(dnsAttached := before.dnsAttached, dns := before.dns), n, d)
    else ReportEdit(before, local, n, d)
  }

  /** The object after a deployment, however it ended. */
  predicate DeployEdit(before: NomadMachine, local: NomadMachine, n: Name, info: P.MachineInfo, r: Replies)
    requires r.owners.Found?
  {
    if EndsInMachine(r) then DeploymentEdit(before, local, n, info, r.deployment.value, r)
    else local == if EndsInError(r) then before.(deployed := IsFalse("MachineDeployFailed")) else before
  }

  /** The object that a live machine's reconcile hands to Close. */
  predicate NormalEdit(before: NomadMachine, local: NomadMachine, n: Name, info: P.MachineInfo, infraReady: bool,
                       r: Replies)
    requires r.owners.Found?
  {
    if !before.finalizer then local == before.(finalizer := true)
    else if !infraReady then local == before.(deployed := IsFalse("WaitingForClusterInfrastructure"))
    else match r.owners.bootstrap
      case NoSecretName => local == before.(deployed := IsFalse("WaitingForBootstrapData"))
      case Unreadable => local == before.(deployed := IsFalse("MachineDeployFailed"))
      case Data(_) => DeployEdit(before, local, n, info, r)
  }

  /** The object that the reconcile of a machine being deleted hands to Close. */
  predicate DeleteEdit(before: NomadMachine, local: NomadMachine, info: P.MachineInfo, r: Replies) {
    var detached :=
      if info.controlPlane && r.deregister.Succeeded?
      then before.(dnsAttached := false, dns := IsFalse("DNSAttachPending")) else before;
    local ==
      if DeleteReturn(P.Done, info, r) then detached.(deployed := IsFalse("Deleted"), finalizer := false) else detached
  }

  /** What a reconcile returns: an error of Close, unless there is a failure already. */
  function Returned(result: P.Result, closed: bool): P.Result {
    if !closed && result in {P.Done, P.Requeue} then P.Failed else result
  }
}
