/** The cluster reconciler as it runs. Starting the API server poller changes none of these
    stores; it is modelled in the poller modules. */
module ClusterController {
  import opened Common
  import opened Types
  import opened System
  import opened World
  import C = ClusterProtocol

  class ClusterScope {
    const name: string
    const info: C.ClusterInfo
    var nomadCluster: NomadCluster

    constructor (name: string, info: C.ClusterInfo, nomadCluster: NomadCluster)
      ensures this.name == name && this.info == info && this.nomadCluster == nomadCluster
    {
      this.name := name;
      this.info := info;
      this.nomadCluster := nomadCluster;
    }

    method SetFinalizer(present: bool)
      modifies this
      ensures nomadCluster == old(nomadCluster).(finalizer := present)
    {
      nomadCluster := nomadCluster.(finalizer := present);
    }

    method SetDNSName(dnsName: string)
      modifies this
      ensures nomadCluster == old(nomadCluster).(dnsName := dnsName)
    {
      nomadCluster := nomadCluster.(dnsName := dnsName);
    }

    method SetEndpoint(host: string, port: int)
      modifies this
      ensures nomadCluster == old(nomadCluster).(endpoint := APIEndpoint(host, port))
    {
      nomadCluster := nomadCluster.(endpoint := APIEndpoint(host, port));
    }

    method SetReady()
      modifies this
      ensures nomadCluster == old(nomadCluster).(ready := true)
    {
      nomadCluster := nomadCluster.(ready := true);
    }

    method MarkDNSReady(condition: Condition)
      modifies this
      ensures nomadCluster == old(nomadCluster).(dnsReady := condition)
    {
      nomadCluster := nomadCluster.(dnsReady := condition);
    }

    method MarkAPIServer(condition: Condition)
      modifies this
      ensures nomadCluster == old(nomadCluster).(apiServer := condition)
    {
      nomadCluster := nomadCluster.(apiServer := condition);
    }
  }

  datatype Result = Done | Requeue | Failed

  datatype Owner = LookupFailed | Missing | Owned

  /** `fetched`: the first read succeeds; a Close that succeeds has had its effect. */
  datatype Replies = Replies(fetched: bool, owner: Owner, online: bool, closeTook: bool, closeOk: bool)

  /** The object that a reconcile hands to Close, written out. */
  predicate Edited(before: NomadCluster, local: NomadCluster, c: Name, info: C.ClusterInfo, online: bool) {
    local ==
      if before.deleting then before.(finalizer := false)
      else if !before.finalizer then before.(finalizer := true)
      else before.(
        dnsName := c + ".service.consul",
        endpoint := APIEndpoint(
          c + ".service.consul",
          if info.apiServerPort.Some? then info.apiServerPort.value else 6443),
        ready := true,
        dnsReady := IsTrue,
        apiServer := if online then IsTrue else IsFalse("APIServerNotReady"))
  }

  /** The last step was a Close: it reports success exactly if its patch does, and there is an object to patch or
      nothing to send; a patch that takes effect stores the edit, one that does not changes nothing. */
  ghost predicate Closes(w: Stores, c: Name, before: NomadCluster, local: NomadCluster, r: Replies, closed: bool)
    reads w
  {
    && |w.states| == |w.acts| + 1 && w.acts != []
    && var s := w.states[|w.acts| - 1];
       && (closed <==> r.closeOk && ((r.closeTook && c in s.nomadClusters) || local == before))
       && Get(w.sys.nomadClusters, c) ==
            if r.closeTook && c in s.nomadClusters then C.Stored(before, local, s.nomadClusters[c])
            else Get(s.nomadClusters, c)
  }

  /** The stores hold cluster c's reconcile in flight as the scope has it, about to do pc. */
  ghost predicate At(w: Stores, scope: ClusterScope, before: NomadCluster, pc: C.ClusterPc)
    reads w, scope
  {
    && w.Valid()
    && scope.name in w.sys.clusters && w.sys.clusters[scope.name] == scope.info
    && Get(w.sys.clusterFlights, scope.name) == Some(C.ClusterFlight(before, scope.nomadCluster, pc))
  }

  method ReconcileNormal(w: Stores, scope: ClusterScope, ghost before: NomadCluster, online: bool) returns (res: Result)
    requires scope.nomadCluster == before && !before.deleting
    requires w.Valid() && scope.name in w.sys.clusters && w.sys.clusters[scope.name] == scope.info
    requires Get(w.sys.clusterFlights, scope.name) == Some(C.Enter(before, scope.name, scope.info))
    modifies w, scope
    ensures old(w.acts) <= w.acts && old(w.states) <= w.states
    ensures At(w, scope, before, C.CloseScope) && res == Done
    ensures Edited(before, scope.nomadCluster, scope.name, scope.info, online)
  {
    hide Execution, WithClusterSlot;
    assert scope.name + "." + "service.consul" == scope.name + ".service.consul";
    if !scope.nomadCluster.finalizer {
      scope.SetFinalizer(true);
      return Done;
    }
    var dnsName := scope.name + "." + C.CONSUL_DOMAIN;
    scope.SetDNSName(dnsName);
    C.DnsNameIsInjective(scope.name, scope.name);
    if scope.nomadCluster.dnsName == "" {
      return Requeue;
    }
    scope.SetEndpoint(scope.nomadCluster.dnsName, C.ApiServerPort(scope.info));
    scope.SetReady();
    scope.MarkDNSReady(IsTrue);
    w.YieldCluster(scope.name);
    w.ClusterCall(scope.name, C.Probed(online));
    if !online {
      scope.MarkAPIServer(IsFalse(API_SERVER_NOT_READY));
      return Done;
    }
    scope.MarkAPIServer(IsTrue);
    return Done;
  }

  /** One call of the reconciler for cluster c; `before` is the object as it was read, None if no scope was opened,
      `local` the object as it was handed to Close. It returns an error exactly if a read or Close fails. A successful
      return of one that found its finalizer leaves the cluster published, or, if it was being deleted, gone. */
  method Reconcile(w: Stores, c: Name, r: Replies)
      returns (res: Result, ghost before: Option<NomadCluster>, ghost local: NomadCluster)
    requires w.Valid() && c in w.sys.clusters && c !in w.sys.clusterFlights
    modifies w
    ensures w.Valid() && old(w.acts) <= w.acts && old(w.states) <= w.states
    ensures c !in w.sys.clusterFlights
    ensures before.Some? <==> r.fetched && c in old(w.sys).nomadClusters && r.owner.Owned?
    ensures before.None? ==> ClusterSlot(w.sys, c) == old(ClusterSlot(w.sys, c))
    ensures before.None? ==>
      res == if !r.fetched || (c in old(w.sys).nomadClusters && r.owner.LookupFailed?) then Failed else Done
    ensures before.Some? ==> before.value == old(w.sys).nomadClusters[c]
    ensures before.Some? ==> Edited(before.value, local, c, old(w.sys).clusters[c], r.online)
    ensures before.Some? ==> Closes(w, c, before.value, local, r, res.Done?) && !res.Requeue?
    ensures before.Some? && res.Done? && before.value.deleting ==> c !in w.sys.nomadClusters
    ensures before.Some? && res.Done? && !before.value.deleting && before.value.finalizer ==>
      c in w.sys.nomadClusters && C.Published(w.sys.nomadClusters[c], c, old(w.sys).clusters[c])
  {
    hide Execution, WithClusterSlot, C.DnsName, C.ApiServerPort, Closes;
    local := NEW_CLUSTER;
    if !r.fetched {
      return Failed, None, local;
    }
    if c !in w.sys.nomadClusters {
      return Done, None, local;
    }
    var info, nc := w.sys.clusters[c], w.sys.nomadClusters[c];
    w.ClusterCall(c, C.Fetch(r.owner.Owned?));
    if !r.owner.Owned? {
      assert ClusterSlot(w.sys, c).flight.None?;
      return if r.owner.LookupFailed? then Failed else Done, None, local;
    }
    before := Some(nc);
    assert ClusterSlot(w.sys, c).flight == Get(w.sys.clusterFlights, c);
    var scope := new ClusterScope(c, info, nc);
    if scope.nomadCluster.deleting {
      scope.SetFinalizer(false);
      res := Done;
    } else {
      res := ReconcileNormal(w, scope, nc, r.online);
    }
    local := scope.nomadCluster;
    EditedIsPublished(nc, local, c, info, r.online);
    res := CloseScope(w, scope, nc, r);
  }

  lemma EditedIsPublished(before: NomadCluster, local: NomadCluster, c: Name, info: C.ClusterInfo, online: bool)
    requires Edited(before, local, c, info, online)
    ensures before.deleting <==> !local.finalizer
    ensures !before.deleting && before.finalizer ==> C.Published(local, c, info)
  {
    assert c + "." + "service.consul" == c + ".service.consul";
  }

  /** Persists the scope's changes. */
  method CloseScope(w: Stores, scope: ClusterScope, before: NomadCluster, r: Replies) returns (res: Result)
    requires At(w, scope, before, C.CloseScope)
    requires before.deleting <==> !scope.nomadCluster.finalizer
    modifies w
    ensures w.Valid() && old(w.acts) <= w.acts && old(w.states) <= w.states
    ensures scope.name !in w.sys.clusterFlights
    ensures Closes(w, scope.name, before, scope.nomadCluster, r, res.Done?) && !res.Requeue?
    ensures res.Done? && before.deleting ==> scope.name !in w.sys.nomadClusters
    ensures
      res.Done? && !before.deleting && before.finalizer && C.Published(scope.nomadCluster, scope.name, scope.info) ==>
      scope.name in w.sys.nomadClusters && C.Published(w.sys.nomadClusters[scope.name], scope.name, scope.info)
  {
    hide Execution, WithClusterSlot, C.Step, C.Published;
    var c := scope.name;
    w.YieldCluster(c);
    w.Reached();
    assert ClusterInv(w.sys, c);
    var took := r.closeTook && c in w.sys.nomadClusters;
    var ok := r.closeOk && (took || scope.nomadCluster == before);
    ghost var v := ClusterSlot(w.sys, c);
    w.ClusterCall(c, C.Closed(took, ok));
    C.ClosedCluster(c, scope.info, v, took, ok);
    assert ClusterSlot(w.sys, c).flight.None? && ClusterSlot(w.sys, c).obj == Get(w.sys.nomadClusters, c);
    res := if ok then Done else Failed;
  }
}
