/** The invariant that ties a machine's stored object, its job, its Consul entry and its
    reconcile in flight together, and its preservation by every step. */
module Safety {
  import opened Common
  import opened Types
  import opened Protocol
  import MacAddress
  import ProviderId

  /** Ready means a successful deployment; MachineDeployed=True implies Ready. */
  ghost predicate StatusConsistent(nm: NomadMachine) {
    && (nm.ready <==> nm.deploymentStatus == Some(STATE_SUCCESSFUL))
    && (nm.deployed.IsTrue? ==> nm.ready)
  }

  ghost predicate Held(v: Slot) {
    v.obj.Some? && v.obj.value.finalizer
  }

  /** Nothing remote exists without a finalizer on the stored object. */
  ghost predicate NoLeak(n: Name, info: MachineInfo, v: Slot) {
    && (v.job.Some? ==>
          Held(v) && v.job.value.id == n && v.job.value == JobFor(n, v.job.value.datacenter, v.job.value.userData))
    && (v.svc.Some? ==> Held(v) && info.controlPlane && v.svc.value == ServiceFor(n, info))
  }

  ghost predicate ObjectOk(v: Slot) {
    v.obj.Some? ==>
      var nm := v.obj.value;
      && StatusConsistent(nm)
      && (nm.deleting ==> nm.finalizer)
      && (!nm.deleting && nm.dnsAttached ==> v.svc.Some?)
  }

  /** The stored object is still the one that was read, except that it may since have been deleted. */
  ghost predicate Unmoved(v: Slot, before: NomadMachine) {
    && v.obj.Some?
    && v.obj.value.(deleting := before.deleting) == before
    && (before.deleting ==> v.obj.value.deleting)
  }

  /** Everything the reconcile has reported about deployment d. */
  ghost predicate Reported(nm: NomadMachine, d: Deployment) {
    && nm.providerID == Some(ProviderId.Format(d.jobID, d.id))
    && nm.deploymentStatus == Some(d.status)
  }

  ghost predicate FlightOk(info: MachineInfo, v: Slot) {
    v.flight.Some? ==>
      var f := v.flight.value;
      var b, l := f.before, f.local;
      && StatusConsistent(b) && StatusConsistent(l)
      && l.deleting == b.deleting
      && (b.deleting ==> b.finalizer)
      && (b.finalizer ==> Unmoved(v, b))
      && (b.failureReason.Some? ==> l.failureReason.Some?)
      && (!b.deleting && l.dnsAttached ==> v.svc.Some?)
      && (f.deployment.Some? ==> !b.deleting && b.finalizer && Reported(l, f.deployment.value))
      && match f.pc
         case ReadOwners => l == b && f.deployment.None?
         case Close(r) =>
           && (!b.finalizer ==> l == b.(finalizer := true) && f.deployment.None?)
           && (b.finalizer && !b.deleting ==> l.finalizer)
           && (r.Panicked? ==> l == b && b.finalizer && !b.deleting)
           && (b.finalizer && !l.finalizer ==> v.job.None? && v.svc.None?)
           && (f.deployment.Some? && r.Done? ==>
                 v.node == l.providerID && l.deploymentStatus.value in OPERATIONAL_STATES)
         case DeregisterService => b.deleting && l == b && info.controlPlane
         case DeregisterJob => b.deleting && l.finalizer && v.svc.None?
         case RegisterService =>
           !b.deleting && b.finalizer && l.finalizer && info.controlPlane && f.deployment.Some? &&
           l.deploymentStatus.value in RUNNING_STATES
         case CheckApiServer => !b.deleting && b.finalizer && l.finalizer && f.deployment.Some?
         case PatchNode =>
           !b.deleting && b.finalizer && l.finalizer && f.deployment.Some? &&
           l.deploymentStatus.value in OPERATIONAL_STATES
         case _ => !b.deleting && b.finalizer && l.finalizer && l == b
  }

  ghost predicate SlotInv(n: Name, info: MachineInfo, v: Slot) {
    NoLeak(n, info, v) && ObjectOk(v) && FlightOk(info, v)
  }

  /** What no single step may undo. */
  ghost predicate SlotStepOk(v: Slot, v': Slot) {
    // a finalizer leaves only when the job and the Consul entry have gone before it
    && (Held(v) && !Held(v') ==> v.job.None? && v.svc.None?)
    // a failure stays reported, a deletion stays requested
    && (v.obj.Some? && v'.obj.Some? && v.obj.value.failureReason.Some? ==> v'.obj.value.failureReason.Some?)
    && (v.obj.Some? && v'.obj.Some? && v.obj.value.deleting ==> v'.obj.value.deleting)
    // only a machine being deleted leaves the Consul catalogue
    && (v.svc.Some? && v'.svc.None? ==> Held(v) && v.obj.value.deleting)
  }

  lemma MergeOntoUnmoved(v: Slot, b: NomadMachine, l: NomadMachine)
    requires Unmoved(v, b) && l.deleting == b.deleting
    ensures Merge(b, l, v.obj.value) == l.(deleting := v.obj.value.deleting)
  {
  }

  lemma MergeFinalizer(b: NomadMachine, cur: NomadMachine)
    requires !b.finalizer
    ensures Merge(b, b.(finalizer := true), cur) == cur.(finalizer := true)
  {
  }

  /** One step a of the machine n keeps the invariant and undoes nothing it may not undo. */
  ghost predicate Keeps(n: Name, info: MachineInfo, cluster: ClusterView, v: Slot, a: Act)
    requires Enabled(v, a)
  {
    SlotInv(n, info, Step(n, info, cluster, v, a)) && SlotStepOk(v, Step(n, info, cluster, v, a))
  }

  lemma EnvironmentKeeps(n: Name, info: MachineInfo, cluster: ClusterView, v: Slot, a: Act)
    requires SlotInv(n, info, v) && Enabled(v, a)
    requires a.Create? || a.UserDelete? || a.NodeJoins? || a.Fetch?
    ensures Keeps(n, info, cluster, v, a)
  {
    hide ServiceFor, MacAddress.MacOf, ProviderId.Format;
  }

  /** The job's user data and failure domain are those that were read; the NomadMachine's own domain
      goes before the Machine's. */
  predicate Chooses(o: Owners, datacenter: string, userData: string) {
    && o.Found? && o.bootstrap == Data(userData)
    && Some(datacenter) == if o.ownDomain.Some? then o.ownDomain else o.machineDomain
  }

  /** A deployment begins with a read, which fixes what is deployed. */
  lemma DeploymentBeginsWithRead(n: Name, info: MachineInfo, cluster: ClusterView, v: Slot, a: Act)
    requires Enabled(v, a)
    ensures var v' := Step(n, info, cluster, v, a);
      v'.flight.Some? && v'.flight.value.pc.RegisterJob? ==>
        var pc := v'.flight.value.pc;
        (a.Read? && Chooses(a.owners, pc.datacenter, pc.userData)) || (v.flight.Some? && v.flight.value.pc == pc)
  {
    hide JobFor, ServiceFor, Report, Merge, ProviderId.Format;
  }

  lemma OnlyJobCallsTouchJobs(n: Name, info: MachineInfo, cluster: ClusterView, v: Slot, a: Act)
    requires Enabled(v, a) && !a.JobRegistered? && !a.JobDeregistered?
    ensures Step(n, info, cluster, v, a).job == v.job
  {
    hide JobFor, ServiceFor, Enter, NextFlight, Patched;
  }

  /** A registered job is new only as what its reconcile is about to register. */
  lemma JobIsWhatWasChosen(n: Name, info: MachineInfo, cluster: ClusterView, v: Slot, a: Act)
    requires Enabled(v, a)
    ensures var v' := Step(n, info, cluster, v, a);
      v'.job.None? || v'.job == v.job ||
      (v.flight.Some? && v.flight.value.pc.RegisterJob? &&
       v'.job == Some(JobFor(n, v.flight.value.pc.datacenter, v.flight.value.pc.userData)))
  {
    hide JobFor, ServiceFor, Report, Merge, ProviderId.Format;
  }

  lemma ReadKeeps(n: Name, info: MachineInfo, cluster: ClusterView, v: Slot, a: Act)
    requires SlotInv(n, info, v) && Enabled(v, a)
    requires a.Read?
    ensures Keeps(n, info, cluster, v, a)
  {
    hide ServiceFor, MacAddress.MacOf, ProviderId.Format;
  }

  lemma DeployKeeps(n: Name, info: MachineInfo, cluster: ClusterView, v: Slot, a: Act)
    requires SlotInv(n, info, v) && Enabled(v, a)
    requires a.JobRegistered? || a.EvalAnswered?
    ensures Keeps(n, info, cluster, v, a)
  {
    hide ServiceFor, MacAddress.MacOf, ProviderId.Format;
  }

  lemma ReportIsConsistent(nm: NomadMachine, n: Name, d: Deployment)
    ensures var nm' := Report(nm, n, d);
      && StatusConsistent(nm') && Reported(nm', d)
      && nm'.deleting == nm.deleting && nm'.finalizer == nm.finalizer && nm'.dnsAttached == nm.dnsAttached
      && (nm.failureReason.Some? ==> nm'.failureReason.Some?)
  {
    hide ProviderId.Format, DnsName, UndefinedState;
    if d.status == STATE_RUNNING {
    } else if d.status == STATE_SUCCESSFUL {
    }
  }

  lemma ReportKeeps(n: Name, info: MachineInfo, cluster: ClusterView, v: Slot, a: Act)
    requires SlotInv(n, info, v) && Enabled(v, a)
    requires a.DeploymentFetched?
    ensures Keeps(n, info, cluster, v, a)
  {
    hide ServiceFor, JobFor, Report, ProviderId.Format;
    if a.answer.Some? {
      ReportIsConsistent(v.flight.value.local, n, a.answer.value);
    }
  }

  lemma AttachKeeps(n: Name, info: MachineInfo, cluster: ClusterView, v: Slot, a: Act)
    requires SlotInv(n, info, v) && Enabled(v, a)
    requires a.ServiceRegistered? || a.ApiServerChecked? || a.NodePatched?
    ensures Keeps(n, info, cluster, v, a)
  {
    hide ServiceFor, MacAddress.MacOf, ProviderId.Format;
  }

  lemma DetachKeeps(n: Name, info: MachineInfo, cluster: ClusterView, v: Slot, a: Act)
    requires SlotInv(n, info, v) && Enabled(v, a)
    requires a.ServiceDeregistered? || a.JobDeregistered?
    ensures Keeps(n, info, cluster, v, a)
  {
    hide ServiceFor, MacAddress.MacOf, ProviderId.Format;
  }

  lemma CloseKeeps(n: Name, info: MachineInfo, cluster: ClusterView, v: Slot, a: Act)
    requires SlotInv(n, info, v) && Enabled(v, a)
    requires a.Closed?
    ensures Keeps(n, info, cluster, v, a)
  {
    hide ServiceFor, MacAddress.MacOf, ProviderId.Format;
    if a.took {
      var f := v.flight.value;
      if f.before.finalizer {
        MergeOntoUnmoved(v, f.before, f.local);
      } else {
        MergeFinalizer(f.before, v.obj.value);
      }
    }
  }

  lemma StepKeepsInvariant(n: Name, info: MachineInfo, cluster: ClusterView, v: Slot, a: Act)
    requires SlotInv(n, info, v) && Enabled(v, a)
    ensures Keeps(n, info, cluster, v, a)
  {
    hide SlotInv, Step, Keeps, Enabled;
    match a
    case Create => EnvironmentKeeps(n, info, cluster, v, a);
    case UserDelete => EnvironmentKeeps(n, info, cluster, v, a);
    case NodeJoins => EnvironmentKeeps(n, info, cluster, v, a);
    case Fetch => EnvironmentKeeps(n, info, cluster, v, a);
    case Read(_) => ReadKeeps(n, info, cluster, v, a);
    case JobRegistered(_, _) => DeployKeeps(n, info, cluster, v, a);
    case EvalAnswered(_) => DeployKeeps(n, info, cluster, v, a);
    case DeploymentFetched(_) => ReportKeeps(n, info, cluster, v, a);
    case ServiceRegistered(_, _) => AttachKeeps(n, info, cluster, v, a);
    case ApiServerChecked(_) => AttachKeeps(n, info, cluster, v, a);
    case NodePatched(_) => AttachKeeps(n, info, cluster, v, a);
    case ServiceDeregistered(_, _) => DetachKeeps(n, info, cluster, v, a);
    case JobDeregistered(_, _) => DetachKeeps(n, info, cluster, v, a);
    case Closed(_, _) => CloseKeeps(n, info, cluster, v, a);
  }

  /** Node and object agree on deployment d, in an operational state. */
  ghost predicate Settled(v: Slot, d: Deployment) {
    && v.obj.Some? && v.node.Some?
    && v.obj.value.providerID == Some(ProviderId.Format(d.jobID, d.id)) == v.node
    && v.obj.value.deploymentStatus == Some(d.status) && d.status in OPERATIONAL_STATES
    && (v.obj.value.ready <==> d.status == "successful")
  }

  /** What a patch leaves in the store: the finalizer on an object that had none, the edited object on one
      that had it, and nothing once the finalizer is dropped. */
  function Stored(before: NomadMachine, local: NomadMachine, cur: NomadMachine): Option<NomadMachine> {
    if !before.finalizer then Some(cur.(finalizer := true))
    else if local.finalizer then Some(local.(deleting := cur.deleting))
    else None
  }

  /** What a Close has stored, and what it means if it reports success. */
  lemma ClosedMachine(n: Name, info: MachineInfo, cluster: ClusterView, v: Slot, took: bool, ok: bool)
    requires SlotInv(n, info, v) && Enabled(v, Closed(took, ok))
    ensures var f, v' := v.flight.value, Step(n, info, cluster, v, Closed(took, ok));
      && v'.flight.None?
      && v'.obj == (if took then Stored(f.before, f.local, v.obj.value) else v.obj)
      && (ok && f.before.deleting && !f.local.finalizer ==> v'.obj.None? && v'.job.None? && v'.svc.None?)
      && (ok && f.deployment.Some? && f.pc == Close(Done) ==> Settled(v', f.deployment.value))
      && (f.pc == Close(Panicked) ==> v' == v.(flight := None))
  {
    hide JobFor, ServiceFor, ProviderId.Format;
    if took {
      var f := v.flight.value;
      if f.before.finalizer {
        MergeOntoUnmoved(v, f.before, f.local);
      } else {
        MergeFinalizer(f.before, v.obj.value);
      }
    }
  }

  lemma CrashKeepsInvariant(n: Name, info: MachineInfo, v: Slot)
    requires SlotInv(n, info, v)
    ensures SlotInv(n, info, v.(flight := None))
  {
  }
}
