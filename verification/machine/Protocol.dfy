/** One machine's part of the system, and the steps that change it: those of its own
    reconciler, one remote call at a time, and those of its environment. */
module Protocol {
  import opened Common
  import opened Types
  import Evaluation
  import Fnv
  import MacAddress
  import ProviderId

  /** What is fixed about a machine: its Cluster and its control-plane label. */
  datatype MachineInfo = MachineInfo(cluster: Name, controlPlane: bool)

  // ---------------------------------------------------------- what is written where

  function DnsName(n: Name): string {
    n + ".sc"
  }

  /** The octets of a name; machine names are DNS labels, so every character is one octet. */
  function OctetsOf(n: Name): (octets: seq<Fnv.byte>)
    ensures |octets| == |n|
    ensures forall i :: 0 <= i < |n| && n[i] as int < 256 ==> octets[i] == n[i] as int
  {
    seq(|n|, i requires 0 <= i < |n| => n[i] as int % 256)
  }

  function JobFor(n: Name, datacenter: string, userData: string): Job {
    Job(n, datacenter, MacAddress.MacOf(OctetsOf(n)), userData)
  }

  function ServiceFor(n: Name, info: MachineInfo): Service {
    Service(info.cluster, n, ["api-server"], DnsName(n), 6443)
  }

  // ---------------------------------------------------------------- a reconcile in flight

  datatype Result = Done | Requeue | Failed | Panicked

  /** The next thing a reconcile in flight does. */
  datatype Pc =
    | ReadOwners
    | RegisterJob(datacenter: string, userData: string)
    | QueryEval(evalID: string)
    | FetchDeployment(deploymentID: string)
    | RegisterService
    | CheckApiServer
    | PatchNode
    | DeregisterService
    | DeregisterJob
    | Close(result: Result)

  /** `before` is the object as it was read, `local` the copy that the reconcile edits,
      `deployment` what DeployMachine returned. */
  datatype Flight = Flight(before: NomadMachine, local: NomadMachine, deployment: Option<Deployment>, pc: Pc)

  /** One machine's entries in the four stores, and its reconcile in flight. */
  datatype Slot = Slot(
    obj: Option<NomadMachine>,
    job: Option<Job>,
    svc: Option<Service>,
    node: Option<string>,
    flight: Option<Flight>)

  const EMPTY_SLOT := Slot(None, None, None, None, None)

  /** What the machine controller sees of the machine's cluster. */
  datatype ClusterView = ClusterView(known: bool, infraReady: bool)

  // -------------------------------------------------------------------------- the steps

  datatype Bootstrap = NoSecretName | Unreadable | Data(userData: string)

  /** The reads that follow the first one. Only `Found` leads to a scope that is closed. */
  datatype Owners =
    | OwnerLookupFailed
    | NoOwner
    | NoCluster
    | Paused
    | Found(bootstrap: Bootstrap, ownDomain: Option<string>, machineDomain: Option<string>)

  datatype NodeReply = NodeUnavailable | NodePatch(took: bool, ok: bool)

  /** `took`: the call had its effect; `ok`: it reported success. */
  datatype Act =
    // the environment
    | Create
    | UserDelete
    | NodeJoins
    // the reconciler
    | Fetch
    | Read(owners: Owners)
    | JobRegistered(took: bool, evalID: Option<string>)
    | EvalAnswered(reply: Evaluation.Reply)
    | DeploymentFetched(answer: Option<Deployment>)
    | ServiceRegistered(took: bool, ok: bool)
    | ApiServerChecked(online: bool)
    | NodePatched(node: NodeReply)
    | ServiceDeregistered(took: bool, ok: bool)
    | JobDeregistered(took: bool, ok: bool)
    | Closed(took: bool, ok: bool)

  /** Which steps can happen. A call that reports success has had its effect. */
  predicate Enabled(v: Slot, a: Act) {
    match a
    case Create => v.obj.None?
    case UserDelete => v.obj.Some?
    case NodeJoins => v.node.None?
    case Fetch => v.obj.Some? && v.flight.None?
    case _ =>
      v.flight.Some? &&
      var f := v.flight.value;
      match a
      case Read(_) => f.pc.ReadOwners?
      case JobRegistered(took, evalID) => f.pc.RegisterJob? && (evalID.Some? ==> took)
      case EvalAnswered(_) => f.pc.QueryEval?
      case DeploymentFetched(_) => f.pc.FetchDeployment?
      case ServiceRegistered(took, ok) => f.pc.RegisterService? && (ok ==> took)
      case ApiServerChecked(_) => f.pc.CheckApiServer?
      case NodePatched(reply) =>
        f.pc.PatchNode? && (reply.NodePatch? ==> v.node.Some? && (reply.ok ==> reply.took))
      case ServiceDeregistered(took, ok) => f.pc.DeregisterService? && (ok ==> took)
      case JobDeregistered(took, ok) => f.pc.DeregisterJob? && (ok ==> took)
      case Closed(took, ok) =>
        f.pc.Close? && (took ==> v.obj.Some?) && (ok ==> took || f.local == f.before)
      case _ => false
  }

  /** Nothing that can go wrong is left out: users act at any time, reads find anything, and every call may
      succeed, fail without effect, or fail with it. */
  lemma AnythingCanHappen(v: Slot)
    ensures if v.obj.Some? then Enabled(v, UserDelete) else Enabled(v, Create)
    ensures v.node.None? ==> Enabled(v, NodeJoins)
    ensures v.flight.Some? ==>
      match v.flight.value.pc
      case ReadOwners => forall o :: Enabled(v, Read(o))
      case RegisterJob(_, _) =>
        Enabled(v, JobRegistered(false, None)) && Enabled(v, JobRegistered(true, None)) &&
        forall e :: Enabled(v, JobRegistered(true, Some(e)))
      case QueryEval(_) => forall reply :: Enabled(v, EvalAnswered(reply))
      case FetchDeployment(_) => forall answer :: Enabled(v, DeploymentFetched(answer))
      case RegisterService => forall took, ok :: took || !ok ==> Enabled(v, ServiceRegistered(took, ok))
      case CheckApiServer => forall online :: Enabled(v, ApiServerChecked(online))
      case PatchNode =>
        Enabled(v, NodePatched(NodeUnavailable)) &&
        forall took, ok :: v.node.Some? && (took || !ok) ==> Enabled(v, NodePatched(NodePatch(took, ok)))
      case DeregisterService => forall took, ok :: took || !ok ==> Enabled(v, ServiceDeregistered(took, ok))
      case DeregisterJob => forall took, ok :: took || !ok ==> Enabled(v, JobDeregistered(took, ok))
      case Close(_) =>
        Enabled(v, Closed(false, false)) &&
        forall ok :: v.obj.Some? ==> Enabled(v, Closed(true, ok))
  {
  }

  /** A user's delete: the object stays while a finalizer holds it. */
  function DeleteRequested(nm: NomadMachine): Option<NomadMachine> {
    if nm.finalizer then Some(nm.(deleting := true)) else None
  }

  function FailureDomain(o: Owners): Option<string>
    requires o.Found?
  {
    if o.ownDomain.Some? then o.ownDomain else o.machineDomain
  }

  predicate Running(nm: NomadMachine) {
    nm.deploymentStatus.Some? && nm.deploymentStatus.value in RUNNING_STATES
  }

  /** Whether a control-plane machine belongs in the Consul catalogue. */
  predicate Attaches(nm: NomadMachine) {
    !nm.deleting && Running(nm)
  }

  /** Where the reconcile goes to bring the Consul entry in line, and from there. */
  function DnsStep(nm: NomadMachine, info: MachineInfo): Pc {
    if !info.controlPlane then AfterDns(nm)
    else if Attaches(nm) then RegisterService
    else DeregisterService
  }

  function AfterDns(nm: NomadMachine): Pc {
    if nm.deleting then DeregisterJob else CheckApiServer
  }

  /** The branches before the first remote call. */
  function Enter(f: Flight, info: MachineInfo, infraReady: bool, o: Owners): Flight
    requires o.Found?
  {
    var nm := f.local;
    if nm.deleting then
      f.(pc := DnsStep(nm, info))
    else if !nm.finalizer then
      f.(local := nm.(finalizer := true), pc := Close(Done))
    else if !infraReady then
      f.(local := nm.(deployed := IsFalse(WAITING_FOR_CLUSTER_INFRASTRUCTURE)), pc := Close(Done))
    else match o.bootstrap
      case NoSecretName =>
        f.(local := nm.(deployed := IsFalse(WAITING_FOR_BOOTSTRAP_DATA)), pc := Close(Done))
      case Unreadable =>
        DeployFailed(f)
      case Data(userData) =>
        StartDeploy(f, FailureDomain(o), userData)
  }

  /** Dereferencing a missing failure domain panics. */
  function StartDeploy(f: Flight, domain: Option<string>, userData: string): Flight {
    match domain
    case None => f.(pc := Close(Panicked))
    case Some(datacenter) => f.(pc := RegisterJob(datacenter, userData))
  }

  function DeployFailed(f: Flight): Flight {
    f.(local := f.local.(deployed := IsFalse(MACHINE_DEPLOY_FAILED)), pc := Close(Failed))
  }

  function UndefinedState(status: string): string {
    "Nomad m state " + Quote(status) + " is undefined"
  }

  /** The object after a deployment has been reported for it. */
  function Report(nm: NomadMachine, n: Name, d: Deployment): NomadMachine {
    var nm := nm.(
      providerID := Some(ProviderId.Format(d.jobID, d.id)),
      deploymentStatus := Some(d.status),
      statusDescription := Some(d.description));
    var nm :=
      if d.status == STATE_RUNNING then nm.(ready := false, deployed := IsFalse(MACHINE_DEPLOYING))
      else if d.status == STATE_SUCCESSFUL then nm.(ready := true, deployed := IsTrue)
      else nm.(
          ready := false,
          deployed := IsUnknown,
          failureReason := Some(UPDATE_MACHINE_ERROR),
          failureMessage := Some(UndefinedState(d.status)));
    if d.status in KNOWN_STATES then nm.(addresses := [DnsName(n)]) else nm
  }

  function ProviderIdOf(nm: NomadMachine): string {
    if nm.providerID.Some? then nm.providerID.value else ""
  }

  /** Close sends the difference between `before` and `local`. */
  function Merge(before: NomadMachine, local: NomadMachine, cur: NomadMachine): NomadMachine {
    NomadMachine(
      Pick(before.finalizer, local.finalizer, cur.finalizer),
      cur.deleting,
      Pick(before.providerID, local.providerID, cur.providerID),
      Pick(before.ready, local.ready, cur.ready),
      Pick(before.deploymentStatus, local.deploymentStatus, cur.deploymentStatus),
      Pick(before.statusDescription, local.statusDescription, cur.statusDescription),
      Pick(before.dnsAttached, local.dnsAttached, cur.dnsAttached),
      Pick(before.addresses, local.addresses, cur.addresses),
      Pick(before.deployed, local.deployed, cur.deployed),
      Pick(before.dns, local.dns, cur.dns),
      Pick(before.failureReason, local.failureReason, cur.failureReason),
      Pick(before.failureMessage, local.failureMessage, cur.failureMessage))
  }

  /** The stored object after a patch: a deleted object goes with its last finalizer. */
  function Patched(before: NomadMachine, local: NomadMachine, cur: NomadMachine): Option<NomadMachine> {
    var nm := Merge(before, local, cur);
    if nm.deleting && !nm.finalizer then None else Some(nm)
  }

  /** The reconcile after the answer to a remote call; `node` is the node's provider id, if it exists. */
  function NextFlight(n: Name, info: MachineInfo, f: Flight, node: Option<string>, a: Act): Flight {
    match a
    case JobRegistered(_, None) => DeployFailed(f)
    case JobRegistered(_, Some(evalID)) => f.(pc := if evalID == "" then Close(Panicked) else QueryEval(evalID))
    case EvalAnswered(reply) =>
      if Evaluation.Pending(reply) then f
      else (match Evaluation.Outcome(reply)
        case None => DeployFailed(f)
        case Some(id) => f.(pc := FetchDeployment(id)))
    case DeploymentFetched(None) => f.(pc := Close(Panicked))
    case DeploymentFetched(Some(d)) =>
      var nm := Report(f.local, n, d);
      f.(local := nm, deployment := Some(d),
         pc := if d.status in KNOWN_STATES then DnsStep(nm, info) else CheckApiServer)
    case ServiceRegistered(_, ok) =>
      if !ok then f.(pc := Close(Failed))
      else f.(local := f.local.(dnsAttached := true, dns := IsTrue), pc := CheckApiServer)
    case ApiServerChecked(online) =>
      f.(pc := if online && f.local.deploymentStatus.Some? && f.local.deploymentStatus.value in OPERATIONAL_STATES
               then PatchNode else Close(Requeue))
    case NodePatched(reply) =>
      f.(pc := Close(if reply.NodePatch? && (reply.ok || node == Some(ProviderIdOf(f.local))) then Done else Requeue))
    case ServiceDeregistered(_, ok) =>
      if !ok then f.(pc := Close(Failed))
      else f.(local := f.local.(dns := IsFalse(DNS_ATTACH_PENDING), dnsAttached := false), pc := AfterDns(f.local))
    case JobDeregistered(_, ok) =>
      if !ok then f.(pc := Close(Failed))
      else f.(local := f.local.(deployed := IsFalse(DELETED), finalizer := false), pc := Close(Done))
    case _ => f
  }

  /** What a remote call changes in Nomad, in Consul or on the node. */
  function RemoteEffect(n: Name, info: MachineInfo, v: Slot, a: Act): Slot
    requires Enabled(v, a) && v.flight.Some?
  {
    var f := v.flight.value;
    if a.JobRegistered? && a.took then v.(job := Some(JobFor(n, f.pc.datacenter, f.pc.userData)))
    else if a.ServiceRegistered? && a.took then v.(svc := Some(ServiceFor(n, info)))
    else if a.NodePatched? && a.node.NodePatch? && a.node.took then v.(node := Some(ProviderIdOf(f.local)))
    else if a.ServiceDeregistered? && a.took then v.(svc := None)
    else if a.JobDeregistered? && a.took then v.(job := None)
    else v
  }

  /** The effect of one step on the machine's slot. */
  function Step(n: Name, info: MachineInfo, cluster: ClusterView, v: Slot, a: Act): Slot
    requires Enabled(v, a)
  {
    match a
    case Create => v.(obj := Some(NEW_MACHINE))
    case UserDelete => v.(obj := DeleteRequested(v.obj.value))
    case NodeJoins => v.(node := Some(""))
    case Fetch => v.(flight := Some(Flight(v.obj.value, v.obj.value, None, ReadOwners)))
    case Read(owners) =>
      if owners.Found? && cluster.known
      then v.(flight := Some(Enter(v.flight.value, info, cluster.infraReady, owners)))
      else v.(flight := None)
    case Closed(took, _) =>
      var f := v.flight.value;
      v.(obj := if took then Patched(f.before, f.local, v.obj.value) else v.obj, flight := None)
    case _ =>
      RemoteEffect(n, info, v, a).(flight := Some(NextFlight(n, info, v.flight.value, v.node, a)))
  }
}
