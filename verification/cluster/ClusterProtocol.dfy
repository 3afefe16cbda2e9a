/** One cluster's part of the system: its NomadCluster, the core controller's
    InfrastructureReady flag, and the steps that change them. */
module ClusterProtocol {
  import opened Common
  import opened Types

  /** What is fixed about a Cluster: the API server port it may ask for. */
  datatype ClusterInfo = ClusterInfo(apiServerPort: Option<int>)

  const CONSUL_DOMAIN := "service.consul"
  const DEFAULT_PORT := 6443

  function DnsName(c: Name): string {
    c + "." + CONSUL_DOMAIN
  }

  function ApiServerPort(info: ClusterInfo): int {
    match info.apiServerPort
    case Some(port) => port
    case None => DEFAULT_PORT
  }

  /** The name is never empty, so the wait for it is never taken; and no two clusters share one. */
  lemma DnsNameIsInjective(c: Name, c': Name)
    ensures DnsName(c) != ""
    ensures DnsName(c) == DnsName(c') ==> c == c'
  {
    assert DnsName(c)[..|DnsName(c)| - |CONSUL_DOMAIN| - 1] == c;
    assert DnsName(c')[..|DnsName(c')| - |CONSUL_DOMAIN| - 1] == c';
  }

  datatype ClusterPc = ProbeApiServer | CloseScope

  datatype ClusterFlight = ClusterFlight(before: NomadCluster, local: NomadCluster, pc: ClusterPc)

  /** `coreSawReady`: the core controller's last read found the NomadCluster Ready. */
  datatype ClusterSlot = ClusterSlot(
    obj: Option<NomadCluster>,
    coreSawReady: bool,
    infraReady: bool,
    flight: Option<ClusterFlight>)

  const EMPTY_SLOT := ClusterSlot(None, false, false, None)

  datatype ClusterAct =
    // the environment: users, and the core controller, which reads the NomadCluster and, at any
    // later time, may report the infrastructure ready if it read Ready
    | Create
    | UserDelete
    | CoreReads
    | CoreReports(ready: bool)
    // the reconciler
    | Fetch(hasOwner: bool)
    | Probed(online: bool)
    | Closed(took: bool, ok: bool)

  predicate Enabled(v: ClusterSlot, a: ClusterAct) {
    match a
    case Create => v.obj.None?
    case UserDelete => v.obj.Some?
    case CoreReads => true
    case CoreReports(ready) => ready ==> v.coreSawReady
    case Fetch(_) => v.obj.Some? && v.flight.None?
    case Probed(_) => v.flight.Some? && v.flight.value.pc.ProbeApiServer?
    case Closed(took, ok) =>
      v.flight.Some? && v.flight.value.pc.CloseScope? && (took ==> v.obj.Some?) &&
      (ok ==> took || v.flight.value.local == v.flight.value.before)
  }

  /** Users and the core controller act at any time, and a Close may succeed, fail without effect, or fail with it. */
  lemma AnythingCanHappen(v: ClusterSlot)
    ensures if v.obj.Some? then Enabled(v, UserDelete) else Enabled(v, Create)
    ensures Enabled(v, CoreReads) && Enabled(v, CoreReports(false))
    ensures v.coreSawReady ==> Enabled(v, CoreReports(true))
    ensures v.flight.Some? ==>
      match v.flight.value.pc
      case ProbeApiServer => forall online :: Enabled(v, Probed(online))
      case CloseScope => Enabled(v, Closed(false, false)) && forall ok :: v.obj.Some? ==> Enabled(v, Closed(true, ok))
  {
  }

  /** What a reconcile that finds its finalizer publishes. */
  function Publish(nc: NomadCluster, c: Name, info: ClusterInfo): NomadCluster {
    nc.(dnsName := DnsName(c),
        endpoint := APIEndpoint(DnsName(c), ApiServerPort(info)),
        ready := true,
        dnsReady := IsTrue)
  }

  /** The branches up to the API server check. */
  function Enter(nc: NomadCluster, c: Name, info: ClusterInfo): ClusterFlight {
    if nc.deleting then ClusterFlight(nc, nc.(finalizer := false), CloseScope)
    else if !nc.finalizer then ClusterFlight(nc, nc.(finalizer := true), CloseScope)
    else ClusterFlight(nc, Publish(nc, c, info), ProbeApiServer)
  }

  function Checked(nc: NomadCluster, online: bool): NomadCluster {
    nc.(apiServer := if online then IsTrue else IsFalse(API_SERVER_NOT_READY))
  }

  function Merge(before: NomadCluster, local: NomadCluster, cur: NomadCluster): NomadCluster {
    NomadCluster(
      Pick(before.finalizer, local.finalizer, cur.finalizer),
      cur.deleting,
      Pick(before.dnsName, local.dnsName, cur.dnsName),
      APIEndpoint(
        Pick(before.endpoint.host, local.endpoint.host, cur.endpoint.host),
        Pick(before.endpoint.port, local.endpoint.port, cur.endpoint.port)),
      Pick(before.ready, local.ready, cur.ready),
      Pick(before.dnsReady, local.dnsReady, cur.dnsReady),
      Pick(before.apiServer, local.apiServer, cur.apiServer))
  }

  function Patched(before: NomadCluster, local: NomadCluster, cur: NomadCluster): Option<NomadCluster> {
    var nc := Merge(before, local, cur);
    if nc.deleting && !nc.finalizer then None else Some(nc)
  }

  function Step(c: Name, info: ClusterInfo, v: ClusterSlot, a: ClusterAct): ClusterSlot
    requires Enabled(v, a)
  {
    match a
    case Create => v.(obj := Some(NEW_CLUSTER))
    case UserDelete =>
      v.(obj := if v.obj.value.finalizer then Some(v.obj.value.(deleting := true)) else None)
    case CoreReads => v.(coreSawReady := v.obj.Some? && v.obj.value.ready)
    case CoreReports(ready) => v.(infraReady := ready)
    case Fetch(hasOwner) => if hasOwner then v.(flight := Some(Enter(v.obj.value, c, info))) else v
    case Probed(online) =>
      var f := v.flight.value;
      v.(flight := Some(f.(local := Checked(f.local, online), pc := CloseScope)))
    case Closed(took, _) =>
      var f := v.flight.value;
      v.(obj := if took then Patched(f.before, f.local, v.obj.value) else v.obj, flight := None)
  }

  // -------------------------------------------------------------------- the invariant

  /** Ready, with the endpoint at the cluster's Consul name. */
  ghost predicate Published(nc: NomadCluster, c: Name, info: ClusterInfo) {
    nc.ready && nc.dnsName == DnsName(c) && nc.endpoint == APIEndpoint(DnsName(c), ApiServerPort(info))
  }

  ghost predicate Unmoved(v: ClusterSlot, before: NomadCluster) {
    && v.obj.Some?
    && v.obj.value.(deleting := before.deleting) == before
    && (before.deleting ==> v.obj.value.deleting)
  }

  ghost predicate ClusterInv(c: Name, info: ClusterInfo, v: ClusterSlot) {
    && (v.obj.Some? ==>
          && (v.obj.value.deleting ==> v.obj.value.finalizer)
          && (v.obj.value.ready ==> Published(v.obj.value, c, info)))
    && (v.flight.Some? ==>
          var b, l := v.flight.value.before, v.flight.value.local;
          && l.deleting == b.deleting
          && (b.finalizer ==> Unmoved(v, b))
          && (b.ready ==> l.ready)
          && (l.ready ==> Published(l, c, info))
          && (!b.finalizer ==> l == b.(finalizer := true) && v.flight.value.pc.CloseScope?))
  }

  lemma StepKeepsClusterInv(c: Name, info: ClusterInfo, v: ClusterSlot, a: ClusterAct)
    requires ClusterInv(c, info, v) && Enabled(v, a)
    ensures ClusterInv(c, info, Step(c, info, v, a))
    // nothing but a new object takes Ready back
    ensures var v' := Step(c, info, v, a);
      v.obj.Some? && v'.obj.Some? && v.obj.value.ready ==> v'.obj.value.ready
  {
    hide DnsName, ApiServerPort;
    if a.Closed? && a.took {
      var f := v.flight.value;
      if f.before.finalizer {
        assert Merge(f.before, f.local, v.obj.value) == f.local.(deleting := v.obj.value.deleting);
      } else {
        assert Merge(f.before, f.local, v.obj.value) == v.obj.value.(finalizer := true);
      }
    }
  }

  /** What a patch leaves in the store: the finalizer on an object that had none, the edited object on one
      that had it, and nothing once the finalizer is dropped. */
  function Stored(before: NomadCluster, local: NomadCluster, cur: NomadCluster): Option<NomadCluster> {
    if local.finalizer && !before.finalizer then Some(cur.(finalizer := true))
    else if local.finalizer then Some(local.(deleting := cur.deleting))
    else None
  }

  /** What a Close has stored, and what it means if it reports success. */
  lemma ClosedCluster(c: Name, info: ClusterInfo, v: ClusterSlot, took: bool, ok: bool)
    requires ClusterInv(c, info, v) && Enabled(v, Closed(took, ok))
    ensures var b, l, v' := v.flight.value.before, v.flight.value.local, Step(c, info, v, Closed(took, ok));
      && v'.flight.None?
      && ((l.finalizer <==> !b.deleting) ==> v'.obj == (if took then Stored(b, l, v.obj.value) else v.obj))
      && (ok && b.deleting && !l.finalizer && b.finalizer ==> v'.obj.None?)
      && (ok && b.finalizer && !b.deleting && Published(l, c, info) && l.finalizer ==>
            v'.obj.Some? && Published(v'.obj.value, c, info))
  {
    hide DnsName, ApiServerPort;
    var b, l := v.flight.value.before, v.flight.value.local;
    if took && b.finalizer {
      assert Merge(b, l, v.obj.value) == l.(deleting := v.obj.value.deleting);
    } else if took {
      assert Merge(b, l, v.obj.value) == v.obj.value.(finalizer := true);
    }
  }
}
