/** What undisturbed reconciles achieve: convergence, idempotence, and the end of a deletion. */
module Convergence {
  import opened Common
  import opened Types
  import opened Protocol
  import Evaluation
  import Safety
  import ProviderId

  /** A favourable environment: after some pending answers the evaluation names a successful
      deployment, and every call succeeds. */
  datatype Environment = Environment(
    userData: string,
    domain: string,
    evalID: string,
    pending: nat,
    deployment: Deployment)

  ghost predicate Favourable(env: Environment, n: Name) {
    env.evalID != "" && env.deployment.status == STATE_SUCCESSFUL && env.deployment.jobID == n
  }

  /** How the environment answers the next call of the reconcile in flight. */
  function Answer(v: Slot, o: Owners, env: Environment, pending: nat): Act
    requires v.flight.Some?
  {
    match v.flight.value.pc
    case ReadOwners => Read(o)
    case RegisterJob(_, _) => JobRegistered(true, Some(env.evalID))
    case QueryEval(_) =>
      EvalAnswered(
        if pending > 0 then Evaluation.Eval("pending", "") else Evaluation.Eval("complete", env.deployment.id))
    case FetchDeployment(_) => DeploymentFetched(Some(env.deployment))
    case RegisterService => ServiceRegistered(true, true)
    case CheckApiServer => ApiServerChecked(true)
    case PatchNode => NodePatched(if v.node.Some? then NodePatch(true, true) else NodeUnavailable)
    case DeregisterService => ServiceDeregistered(true, true)
    case DeregisterJob => JobDeregistered(true, true)
    case Close(_) =>
      if v.obj.Some? then Closed(true, true) else Closed(false, v.flight.value.local == v.flight.value.before)
  }

  function Rank(v: Slot): nat {
    if v.flight.None? then 0
    else match v.flight.value.pc
      case ReadOwners => 8
      case RegisterJob(_, _) => 7
      case QueryEval(_) => 6
      case FetchDeployment(_) => 5
      case RegisterService => 4
      case CheckApiServer => 3
      case DeregisterService => 4
      case PatchNode => 2
      case DeregisterJob => 2
      case Close(_) => 1
  }

  /** How many pending answers are left after the next call. */
  function Rest(v: Slot, pending: nat): nat
    requires v.flight.Some?
  {
    if v.flight.value.pc.QueryEval? && pending > 0 then pending - 1 else pending
  }

  /** Every answer is possible and brings the reconcile nearer to its end. */
  lemma AnswerProgresses(n: Name, info: MachineInfo, cluster: ClusterView, v: Slot, o: Owners, env: Environment,
                         pending: nat)
    requires v.flight.Some?
    ensures Enabled(v, Answer(v, o, env, pending))
    ensures var v' := Step(n, info, cluster, v, Answer(v, o, env, pending));
      Rank(v') < Rank(v) || (Rank(v') == Rank(v) && Rest(v, pending) < pending)
  {
    hide JobFor, ServiceFor, ProviderId.Format, Report, Merge;
  }

  /** Runs the reconcile in flight to its end. */
  function Drive(n: Name, info: MachineInfo, cluster: ClusterView, v: Slot, o: Owners, env: Environment,
                 pending: nat): Slot
    decreases Rank(v), pending
  {
    if v.flight.None? then v
    else
      AnswerProgresses(n, info, cluster, v, o, env, pending);
      var a := Answer(v, o, env, pending);
      var v' := Step(n, info, cluster, v, a);
      Drive(n, info, cluster, v', o, env, Rest(v, pending))
  }

  function Reconcile(n: Name, info: MachineInfo, cluster: ClusterView, v: Slot, o: Owners, env: Environment): Slot
    requires v.flight.None? && v.obj.Some?
  {
    Drive(n, info, cluster, Step(n, info, cluster, v, Fetch), o, env, env.pending)
  }

  lemma {:induction false} PendingIsSkipped(n: Name, info: MachineInfo, cluster: ClusterView, v: Slot, o: Owners,
                                            env: Environment, pending: nat)
    requires v.flight.Some? && v.flight.value.pc.QueryEval?
    ensures Drive(n, info, cluster, v, o, env, pending) == Drive(n, info, cluster, v, o, env, 0)
  {
    if pending > 0 {
      assert Step(n, info, cluster, v, Answer(v, o, env, pending)) == v;
      PendingIsSkipped(n, info, cluster, v, o, env, pending - 1);
    }
  }

  // ------------------------------------------------------------------------ convergence

  /** The machine's entries in all four stores agree on the deployment. */
  ghost predicate Agreed(n: Name, info: MachineInfo, v: Slot, env: Environment) {
    && v.flight.None?
    && v.obj.Some?
    && var nm, d := v.obj.value, env.deployment;
       && nm.finalizer && !nm.deleting
       && nm.providerID == Some(ProviderId.Format(n, d.id))
       && nm.ready && nm.deployed.IsTrue?
       && nm.deploymentStatus == Some(d.status) && nm.statusDescription == Some(d.description)
       && nm.addresses == [DnsName(n)]
       && v.job == Some(JobFor(n, env.domain, env.userData))
       && v.node == nm.providerID
       && (info.controlPlane ==> nm.dnsAttached && nm.dns.IsTrue? && v.svc == Some(ServiceFor(n, info)))
       && (!info.controlPlane ==> !nm.dnsAttached && v.svc.None?)
  }

  predicate Attempt(v: Slot, cluster: ClusterView, o: Owners, env: Environment) {
    && v.flight.None? && v.obj.Some? && !v.obj.value.deleting && v.node.Some?
    && cluster.known && cluster.infraReady
    && o.Found? && o.bootstrap == Data(env.userData) && FailureDomain(o) == Some(env.domain)
  }

  /** The deployment part of a reconcile: from the read to the check of the API server. */
  lemma Deploys(n: Name, info: MachineInfo, cluster: ClusterView, v: Slot, o: Owners, env: Environment)
    requires Attempt(v, cluster, o, env) && v.obj.value.finalizer && Favourable(env, n)
    ensures var nm := v.obj.value;
      Reconcile(n, info, cluster, v, o, env) ==
      Drive(n, info, cluster,
        v.(job := Some(JobFor(n, env.domain, env.userData)),
           flight := Some(Flight(nm, Report(nm, n, env.deployment), Some(env.deployment),
             if info.controlPlane then RegisterService else CheckApiServer))),
        o, env, 0)
  {
    hide JobFor, Report, ServiceFor;
    var v1 := Step(n, info, cluster, v, Fetch);
    var v2 := Step(n, info, cluster, v1, Answer(v1, o, env, env.pending));
    assert v2.flight.value.pc == RegisterJob(env.domain, env.userData);
    var v3 := Step(n, info, cluster, v2, Answer(v2, o, env, env.pending));
    assert v3.flight.value.pc == QueryEval(env.evalID);
    PendingIsSkipped(n, info, cluster, v3, o, env, env.pending);
    var v4 := Step(n, info, cluster, v3, Answer(v3, o, env, 0));
    assert v4.flight.value.pc == FetchDeployment(env.deployment.id);
    Safety.ReportIsConsistent(v.obj.value, n, env.deployment);
    var v5 := Step(n, info, cluster, v4, Answer(v4, o, env, 0));
    assert Drive(n, info, cluster, v3, o, env, 0) == Drive(n, info, cluster, v5, o, env, 0);
    assert Drive(n, info, cluster, v1, o, env, env.pending) == Drive(n, info, cluster, v3, o, env, env.pending);
  }

  /** The rest of it: Consul, the node, and Close. */
  lemma Settles(n: Name, info: MachineInfo, cluster: ClusterView, v: Slot, o: Owners, env: Environment)
    requires Attempt(v.(flight := None), cluster, o, env) && Favourable(env, n)
    requires v.obj.value.finalizer
    requires v.flight == Some(Flight(v.obj.value, Report(v.obj.value, n, env.deployment), Some(env.deployment),
             if info.controlPlane then RegisterService else CheckApiServer))
    ensures var nm := Report(v.obj.value, n, env.deployment);
      Drive(n, info, cluster, v, o, env, 0) ==
      v.(obj := Some(if info.controlPlane then nm.(dnsAttached := true, dns := IsTrue) else nm),
         svc := if info.controlPlane then Some(ServiceFor(n, info)) else v.svc,
         node := nm.providerID,
         flight := None)
  {
    hide JobFor, ServiceFor, ProviderId.Format;
    var w := if info.controlPlane then Step(n, info, cluster, v, ServiceRegistered(true, true)) else v;
    assert Drive(n, info, cluster, v, o, env, 0) == Drive(n, info, cluster, w, o, env, 0);
    Finishes(n, info, cluster, w, o, env);
  }

  /** From the check of the API server on. */
  lemma Finishes(n: Name, info: MachineInfo, cluster: ClusterView, w: Slot, o: Owners, env: Environment)
    requires w.obj.Some? && w.node.Some? && w.flight.Some? && w.flight.value.pc == CheckApiServer
    requires w.flight.value.before == w.obj.value && w.flight.value.local.deleting == w.obj.value.deleting
    requires !w.obj.value.deleting
    requires w.flight.value.local.deploymentStatus == Some(STATE_SUCCESSFUL)
    ensures Drive(n, info, cluster, w, o, env, 0) ==
      w.(obj := Some(w.flight.value.local), node := Some(ProviderIdOf(w.flight.value.local)), flight := None)
  {
    hide JobFor, ServiceFor, ProviderId.Format;
    var w1 := Step(n, info, cluster, w, ApiServerChecked(true));
    assert w1.flight.value.pc == PatchNode;
    var w2 := Step(n, info, cluster, w1, NodePatched(NodePatch(true, true)));
    assert w2.flight.value.pc == Close(Done);
    var w3 := Step(n, info, cluster, w2, Closed(true, true));
    assert Drive(n, info, cluster, w, o, env, 0) == Drive(n, info, cluster, w2, o, env, 0);
    assert Drive(n, info, cluster, w3, o, env, 0) == w3;
    assert Drive(n, info, cluster, w2, o, env, 0) == w3;
    Safety.MergeOntoUnmoved(w2, w2.flight.value.before, w2.flight.value.local);
  }

  /** One undisturbed reconcile of a machine that has its finalizer reaches agreement, and
      another one then changes nothing at all. */
  lemma OneReconcileSettles(n: Name, info: MachineInfo, cluster: ClusterView, v: Slot, o: Owners, env: Environment)
    requires Safety.SlotInv(n, info, v)
    requires Attempt(v, cluster, o, env) && v.obj.value.finalizer && Favourable(env, n)
    ensures Agreed(n, info, Reconcile(n, info, cluster, v, o, env), env)
    ensures Agreed(n, info, v, env) ==> Reconcile(n, info, cluster, v, o, env) == v
  {
    hide JobFor, ServiceFor, ProviderId.Format, Step;
    Deploys(n, info, cluster, v, o, env);
    var nm := v.obj.value;
    var w := v.(job := Some(JobFor(n, env.domain, env.userData)),
           flight := Some(Flight(nm, Report(nm, n, env.deployment), Some(env.deployment),
             if info.controlPlane then RegisterService else CheckApiServer)));
    Settles(n, info, cluster, w, o, env);
  }

  /** Without its finalizer the first reconcile does nothing but add it. */
  lemma FirstReconcileAddsFinalizer(n: Name, info: MachineInfo, cluster: ClusterView, v: Slot, o: Owners,
                                    env: Environment)
    requires Attempt(v, cluster, o, env) && !v.obj.value.finalizer
    ensures Reconcile(n, info, cluster, v, o, env) == v.(obj := Some(v.obj.value.(finalizer := true)))
  {
    var v1 := Step(n, info, cluster, v, Fetch);
    var v2 := Step(n, info, cluster, v1, Answer(v1, o, env, env.pending));
    assert v2.flight.value.pc == Close(Done);
    var v3 := Step(n, info, cluster, v2, Answer(v2, o, env, env.pending));
    assert Drive(n, info, cluster, v1, o, env, env.pending) == Drive(n, info, cluster, v2, o, env, env.pending);
    assert Drive(n, info, cluster, v3, o, env, env.pending) == v3;
    assert Drive(n, info, cluster, v2, o, env, env.pending) == v3;
    Safety.MergeFinalizer(v.obj.value, v.obj.value);
  }

  /** A deleting reconcile that meets no error: nothing is left, exactly when the owners and the
      NomadCluster are still there; otherwise nothing changes. */
  lemma DeletingReconcile(n: Name, info: MachineInfo, cluster: ClusterView, v: Slot, o: Owners, env: Environment)
    requires Safety.SlotInv(n, info, v) && v.flight.None? && v.obj.Some? && v.obj.value.deleting
    ensures Reconcile(n, info, cluster, v, o, env) ==
      if o.Found? && cluster.known then v.(obj := None, job := None, svc := None) else v
  {
    hide JobFor, ServiceFor, ProviderId.Format, Merge;
    var v1 := Step(n, info, cluster, v, Fetch);
    if o.Found? && cluster.known {
      var v2 := Step(n, info, cluster, v1, Answer(v1, o, env, env.pending));
      assert v2.flight == Some(Flight(v.obj.value, v.obj.value, None, DnsStep(v.obj.value, info)));
      Detaches(n, info, cluster, v2, o, env);
      assert Drive(n, info, cluster, v1, o, env, env.pending) == Drive(n, info, cluster, v2, o, env, env.pending);
    } else {
      assert Step(n, info, cluster, v1, Answer(v1, o, env, env.pending)) == v;
      assert Drive(n, info, cluster, v, o, env, env.pending) == v;
      assert Drive(n, info, cluster, v1, o, env, env.pending) == v;
    }
  }

  /** The deregistrations and the Close of a deleting reconcile. */
  lemma Detaches(n: Name, info: MachineInfo, cluster: ClusterView, v: Slot, o: Owners, env: Environment)
    requires v.obj.Some? && v.obj.value.deleting && v.obj.value.finalizer && (!info.controlPlane ==> v.svc.None?)
    requires v.flight == Some(Flight(v.obj.value, v.obj.value, None, DnsStep(v.obj.value, info)))
    ensures Drive(n, info, cluster, v, o, env, env.pending) == v.(obj := None, job := None, svc := None, flight := None)
  {
    hide JobFor, ServiceFor, ProviderId.Format;
    var w := if info.controlPlane then Step(n, info, cluster, v, ServiceDeregistered(true, true)) else v;
    assert w.flight.value.pc == DeregisterJob && w.svc.None?;
    assert Drive(n, info, cluster, v, o, env, env.pending) == Drive(n, info, cluster, w, o, env, env.pending);
    var w1 := Step(n, info, cluster, w, JobDeregistered(true, true));
    assert w1.flight.value.pc == Close(Done);
    var w2 := Step(n, info, cluster, w1, Closed(true, true));
    assert Drive(n, info, cluster, w, o, env, env.pending) == Drive(n, info, cluster, w2, o, env, env.pending);
  }
}
