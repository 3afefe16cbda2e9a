# Verification of the Nomad infrastructure provider for Cluster API

This project models three parts of the provider in Dafny and proves what they guarantee.

**The machine lifecycle.** A `NomadMachine` reconcile keeps four stores in step: the stored object, the Nomad
job, the Consul entry and the workload cluster's node. `Protocol` breaks it into single remote calls; `System`
lets any number of machines and clusters take such steps in any order, together with user deletes, crashes, and
calls that fail, or take effect and still report an error. `Safety` holds the inductive invariant, `Runs` what
follows for whole executions, `Convergence` and `Outcomes` what undisturbed reconciles achieve, `Shortfalls` the runs
in which the purpose is missed. `ClusterProtocol` adds the `NomadCluster` reconcile and the core controller's
InfrastructureReady flag. `MachineController` and `ClusterController` are the reconcilers as they run, branch by
branch, with other actors between their calls; each method is proved to be a run of the step system. What they return
and store is written out in `MachineReturns` and `ClusterController`, without reference to the step system.

**The API server pollers.** `Poller` is the map under a mutex, the goroutines, the unbuffered channel and the work
queue as interleaved steps; `Wakeup` proves what they guarantee; `PollerHost` is the code as it runs.

**MAC addresses.** `Fnv` is the 32-bit FNV-1a hash of section 2 of draft-eastlake-fnv, "The FNV Non-Cryptographic
Hash Algorithm", with its 32-bit wrap-around written out; `MacAddress` derives the address and says exactly when
two names share one.

## What the proofs rest on

- A read returns what is stored at that moment, and there is one reconcile at a time per machine and per cluster.
- A remote call takes effect before it returns or never; a reported success means that it has. A failure may
  have taken effect or not (`Protocol.AnythingCanHappen`,
  `ClusterProtocol.AnythingCanHappen`).
- Close is one atomic merge patch of the difference between the object as read and as edited.
- Machine names are unique. Job and service ids carry no namespace (`pkg/nomad/machine/machine.go:168`,
  `pkg/nomad/dns/dns.go:33`).
- A machine's control-plane label and cluster do not change, nor does a Cluster's API server port.
- Nothing but these controllers edits the modelled fields, apart from user deletes, re-creation of an object
  that has gone, and nodes that join.
- The core controller sets InfrastructureReady only after it has read the stored NomadCluster Ready; the read may be
  old by then.

## Where the code falls short of its purpose

- A wake-up can be lost: between a poller's send and its removal from the map, a reconcile that finds the API
  server offline again leaves neither a poller nor an event behind (`Wakeup.FlappingLosesWakeup`).
  `Wakeup.WakeupIff` says exactly when it is kept; `Wakeup.NoLostWakeup` is the guarantee for an API server that
  stays online once it has been seen so.
- A machine's deletion needs the NomadCluster, which does not wait for its machines. Once it is gone the machine
  and its job stay (`Outcomes.DeletionCompletesIff` says exactly when a deletion completes,
  `Shortfalls.DeletionWaitsForCluster` and `Shortfalls.ClusterDeletionDoesNotWait` why it may not;
  `Shortfalls.MachineIsStranded` is a run that ends so, for every machine).
- The Consul entry always names port 6443, whatever port the Cluster asks for (`Runs.EndpointNamesTheService` says
  exactly when the endpoint's port is the entry's, `Shortfalls.PortsDisagree` is a run in which it is not).
- `DeployMachine` is meant to return a machine or an error. An empty evaluation id, a deployment that cannot be
  fetched and a missing failure domain end in a nil dereference instead. `MachineController.DeployMachine` says exactly
  which inputs lead to a machine, to an error, to a nil dereference or to a wait that goes on;
  `MachineController.ReconcileNormal` and `MachineController.Reconcile` say exactly when the whole reconcile ends in
  the panic. The deferred Close still runs, but persists nothing (`Runs.PanicPersistsNothing`).

## Model

| member | source | states |
|---|---|---|
| Fnv.Digest.Write | pkg/nomad/machine/machine.go:303-307 | The loop over the octets refines the recursive fold of FNV-1a rounds |
| Fnv.Hash | pkg/nomad/machine/machine.go:303-307 | A fresh hash object fed the whole name yields FNV-1a of the name |
| Fnv.XorBits | pkg/nomad/machine/machine.go:303-307 | The xor of the rounds is bitwise addition modulo 2, bit by bit |
| Fnv.AbsorbLow | pkg/nomad/machine/machine.go:303-307 | The low octet of the hash state evolves on its own: xor, then times 0x93 modulo 256 |
| Fnv.LowRoundIsInjective | pkg/nomad/machine/machine.go:303-307 | Each such round permutes the states for a fixed octet and the octets for a fixed state |
| Fnv.OneOctetChangesLowHash | pkg/nomad/machine/machine.go:303-314 | Names of equal length that differ in exactly one octet have hashes with different low octets |
| MacAddress.GetMacAddress | pkg/nomad/machine/machine.go:309-314 | The address is 52:54:00 and the hash's residues modulo 211, 251 and 256, in two-digit hex |
| MacAddress.FormatRoundTrip | pkg/nomad/machine/machine.go:313-314 | The address string has 17 characters and parsing it recovers its six octets |
| MacAddress.CollisionIff | pkg/nomad/machine/machine.go:309-314 | Two names share an address if and only if their hashes agree modulo 13,558,016 |
| MacAddress.OneOctetChangesMac | pkg/nomad/machine/machine.go:309-314 | Names of equal length that differ in exactly one octet never share an address |
| MacAddress.CombineHasResidues | pkg/nomad/machine/machine.go:311 | Every triple of residues is reached by some hash below 13,558,016 |
| MacAddress.PreimageSize | pkg/nomad/machine/machine.go:311 | Every triple has 317 preimages among the 2^32 hashes if its combined residue is below 10,634,240, otherwise 316 |
| HelloVector.HelloJob | pkg/nomad/machine/machine.go:96 | The job of a machine named "hello" carries that address |
| HelloVector.HelloMac | pkg/nomad/machine/machine_test.go:17-20 | The address of "hello" is the one the unit test expects |
| ProviderId.FormatIs | pkg/nomad/scope/machine.go:180 | A provider id is "nomad:///", the job id, a slash, the deployment id |
| ProviderId.RoundTripIff | pkg/nomad/scope/machine.go:179-182 | Job and deployment id can be read back from a provider id if and only if the job id holds no slash |
| ProviderId.SlashIsAmbiguous | pkg/nomad/scope/machine.go:179-182 | With a slash two different pairs share a provider id |
| Evaluation.PollAfterPending | pkg/nomad/machine/machine.go:269-285 | After n answers "pending" the next one alone decides, with n + 1 queries made: its deployment id if it is "complete", an error for any other status or a failed query |
| Evaluation.PollWaitsIff | pkg/nomad/machine/machine.go:269-285 | The wait goes on exactly while every answer is pending |
| Evaluation.PollLoop | pkg/nomad/machine/machine.go:269-285 | The recursion equals a loop, in answer and in number of queries |
| Types.StateSetsCoincide | api/v1alpha3/types.go:51-73 | Known, operational and running states are the same two states |
| MachineScope.Scope.SetProviderID | pkg/nomad/scope/machine.go:179-182 | Stores "nomad:///", job id, slash, deployment id as the provider id, and nothing else |
| Types.QuotePlain | controllers/nomadmachine_controller.go:257 | A status of plain characters stands in the failure message between quotes as it is |
| Types.QuoteEscapes | controllers/nomadmachine_controller.go:257 | Quotes, backslashes and control characters are escaped as %q escapes them |
| Safety.StepKeepsInvariant | controllers/nomadmachine_controller.go:145-352 | Every step keeps the invariant linking object, job, Consul entry and reconcile in flight, and undoes no reported failure, no deletion, no entry of a live machine |
| Safety.ReportIsConsistent | controllers/nomadmachine_controller.go:221-259 | Reporting a deployment makes Ready equivalent to a successful status and keeps any failure reason |
| Safety.ClosedMachine | pkg/nomad/scope/machine.go:85-115 | A Close that takes effect stores exactly the edited object, keeps a deletion requested meanwhile, and drops an object without finalizer; success means nothing after a delete, agreement after a deploy; a panic changes nothing |
| System.Frame | controllers/nomadmachine_controller.go:160-352 | A step of one machine or cluster touches no other's entries in any store |
| System.Reachable | controllers/nomadmachine_controller.go:65-352 | The invariant holds in every state of every execution |
| Runs.NoLeakedJob | controllers/nomadmachine_controller.go:160-196 | In every reachable state a job with a machine's name is held by the finalizer on the stored object |
| Runs.NoLeakedService | controllers/nomadmachine_controller.go:321-352 | In every reachable state a Consul entry belongs to a control-plane machine with a stored finalizer, and holds that machine's cluster, name, address and port |
| Runs.FinalizerLeavesLast | controllers/nomadmachine_controller.go:167-182 | The step that removes the finalizer finds job and Consul entry already gone |
| Runs.AttachedMeansRegistered | controllers/nomadmachine_controller.go:329-349 | DNSAttached on a stored machine not being deleted implies its Consul entry exists |
| Runs.OnlyDeletionDetaches | controllers/nomadmachine_controller.go:262-272 | A Consul entry disappears only while its machine is being deleted |
| Runs.ReadyIffSuccessful | controllers/nomadmachine_controller.go:234-259 | In every reachable state Ready holds exactly for a successful deployment, and MachineDeployed=True implies it |
| Runs.FailureAndDeletionStick | controllers/nomadmachine_controller.go:252-258 | While an object is stored its failure reason stays set and its deletion stays requested |
| Runs.QuiescenceIsAgreement | controllers/nomadmachine_controller.go:221-291 | A reconcile past deployment that closes with no error and no requeue leaves "nomad:///job/deployment" on node and object, and a status running or successful |
| Runs.JobsAreAsRead | pkg/nomad/machine/machine.go:61-64 | In every reachable state a job has the user data and the failure domain that an earlier read of its machine found, the NomadMachine's own domain before the Machine's, and the MAC of the machine's name |
| Runs.QuiescentNodeNamesDeployment | pkg/nomad/scope/machine.go:264-289 | The node's provider id then parses to that job and deployment |
| Runs.PanicPersistsNothing | pkg/nomad/machine/machine.go:204-219 | The Close that follows a nil dereference changes no object and no job |
| Runs.RegisteredMacs | pkg/nomad/machine/machine.go:96 | Two registered jobs share a MAC exactly on a hash collision, never if their names differ in one octet |
| Runs.JobsFollowPublication | controllers/nomadmachine_controller.go:198-213 | No job or service registration is attempted for a cluster before its NomadCluster was stored Ready with the host cluster name plus ".service.consul" |
| Runs.EndpointNamesTheService | controllers/nomadcluster_controller.go:229-243 | That host is the DNS name of the Consul service its machines register; the port is the one asked for, or 6443, and agrees with the service's exactly if no other is asked for |
| Runs.ClusterStaysReady | controllers/nomadcluster_controller.go:218-267 | No reconcile sets a stored NomadCluster's Ready back to false |
| ClusterProtocol.DnsNameIsInjective | pkg/nomad/scope/cluster.go:124-126 | The DNS name is never empty and no two clusters share one |
| ClusterProtocol.StepKeepsClusterInv | controllers/nomadcluster_controller.go:98-267 | Every step keeps Ready tied to the right endpoint, and Ready set |
| ClusterProtocol.ClosedCluster | pkg/nomad/scope/cluster.go:81-107 | A Close that takes effect stores exactly the edited cluster, or removes a deleted one |
| Convergence.AnswerProgresses | controllers/nomadmachine_controller.go:187-292 | Every answer brings a reconcile nearer to its end |
| Convergence.OneReconcileSettles | controllers/nomadmachine_controller.go:193-291 | One undisturbed reconcile of a machine with its finalizer reaches agreement in all stores; from agreement it changes nothing |
| Convergence.FirstReconcileAddsFinalizer | controllers/nomadmachine_controller.go:192-196 | The first reconcile adds the finalizer and does nothing else |
| Convergence.DeletingReconcile | controllers/nomadmachine_controller.go:160-185 | An error-free deleting reconcile leaves no object, job or entry, provided that the owners can be read; otherwise it changes nothing |
| Outcomes.SoloFromIsRun | controllers/nomadmachine_controller.go:65-158 | An undisturbed reconcile is an execution of the system |
| Outcomes.SoloSettles | controllers/nomadmachine_controller.go:193-291 | One undisturbed reconcile from any invariant state, for the whole system |
| Outcomes.Converges | controllers/nomadmachine_controller.go:193-291 | From any reachable state that allows deployment two reconciles reach agreement, and any number of further ones leave the whole system unchanged |
| Outcomes.DeletionCompletesIff | controllers/nomadmachine_controller.go:81-114 | From every reachable deleting state one error-free reconcile removes everything if and only if owners and NomadCluster are found |
| Shortfalls.DeployedRun | controllers/nomadmachine_controller.go:65-158 | For every machine a run from empty stores that deploys it: cluster published, node joined, two reconciles |
| Shortfalls.DeletionWaitsForCluster | controllers/nomadmachine_controller.go:105-114 | While the NomadCluster is missing a deleted machine's object, job and entry stay, whatever happens |
| Shortfalls.ClusterDeletionDoesNotWait | controllers/nomadcluster_controller.go:124-138 | From every reachable state with an idle NomadCluster three steps remove it and leave all machines, jobs and entries |
| Shortfalls.MachineIsStranded | controllers/nomadmachine_controller.go:105-114 | For every machine a run that ends with it being deleted, its NomadCluster gone, its object, job and entry still there |
| Shortfalls.PortsDisagree | pkg/nomad/dns/dns.go:31-37 | For every control-plane machine of a Cluster that asks for a port other than 6443, a run after which endpoint and Consul entry differ in port |
| World.Stores.Call | controllers/nomadmachine_controller.go:160-292 | A remote call of a machine's reconcile is one step of the system |
| World.Stores.Yield | controllers/nomadmachine_controller.go:65-158 | Every step of the others' turn that can happen does, in order; none touches the reconcile's own copy, its job or its Consul entry |
| MachineController.SubmitJob | pkg/nomad/machine/machine.go:204-208 | The job that was built is registered under the machine's name exactly if the call takes effect, also with an error; an error marks the deployment failed; an empty evaluation id is the nil-error path |
| MachineController.SubmitService | pkg/nomad/dns/dns.go:23-41 | The entry built from cluster and machine is registered under the machine's name exactly if the call takes effect |
| MachineController.RemoveService | pkg/nomad/dns/dns.go:43-48 | The machine's entry is gone if the call takes effect, and as it was otherwise |
| MachineController.ReleaseMachine | pkg/nomad/machine/machine.go:47-54 | The machine's job is gone if the call takes effect, and as it was otherwise; on success the finalizer may go |
| MachineController.GetDeploymentIDFromEval | pkg/nomad/machine/machine.go:269-285 | With any interference between queries the answer is that of the recursion: the first answer that is not "pending" decides, "complete" alone yields its deployment id, and the wait goes on exactly while there is none |
| MachineController.GetDeployment | pkg/nomad/machine/machine.go:217-219 | A deployment that cannot be fetched is a nil dereference, not an error |
| MachineController.DeployMachine | pkg/nomad/machine/machine.go:56-219 | For all inputs, a missing failure domain among them: exactly when it returns a machine, returns an error, dereferences nil, or still waits; the job it sends has the machine's name and MAC, the user data, and the NomadMachine's failure domain before the Machine's |
| MachineController.ReportDeployment | controllers/nomadmachine_controller.go:221-266 | The setters in order store provider id, status, description, Ready, condition with its reason, addresses and failure, each written out for running, successful and any other status |
| MachineController.ReconcileDNSAttachment | controllers/nomadmachine_controller.go:321-352 | On success a running control-plane machine is in the catalogue, one being deleted or not running is not, others are left; DNSAttached says which; it fails exactly if its call does |
| MachineController.SetNodeProviderID | pkg/nomad/scope/machine.go:264-289 | After a success the node carries the provider id; it succeeds exactly if the lookup finds the node with that id or the patch succeeds |
| MachineController.CheckAPIServer | controllers/nomadmachine_controller.go:277-282 | Goes on exactly if the API server is online and the machine operational, otherwise requeues |
| MachineController.ReconcileReported | controllers/nomadmachine_controller.go:261-291 | The part after the status switch is a run of the system up to Close; exactly which replies end in success, a requeue or an error; it never panics |
| MachineController.ReconcileDeployment | controllers/nomadmachine_controller.go:211-291 | The deploying part is a run of the system up to Close; exactly which replies lead to each return, the panic among them |
| MachineController.ReconcileNormal | controllers/nomadmachine_controller.go:187-292 | The whole normal reconcile is a run of the system up to Close; it panics exactly if it gets to deploy and meets one of the three nil dereferences, every other return is fixed by the replies as well, and the edits of each branch are written out |
| MachineController.ReconcileDelete | controllers/nomadmachine_controller.go:160-185 | A run of the system up to Close that succeeds exactly if its calls do, and drops the finalizer exactly then; the edits are written out |
| MachineController.ReadOwners | controllers/nomadmachine_controller.go:76-114 | A scope is opened exactly if owner, cluster and NomadCluster are found and nothing is paused; then the branch to take is fixed |
| MachineController.CloseScope | controllers/nomadmachine_controller.go:144-149 | Returns Close's own error unless there is one, and says exactly when Close fails; success after a delete means nothing is left, after a deploy agreement |
| MachineController.Reconcile | controllers/nomadmachine_controller.go:65-158 | A whole reconcile, under any interference, is a run of the system; exactly which replies and which state read end in a panic, an error, a requeue, success or a wait, which job is left, and what is stored; what success guarantees |
| ClusterController.ReconcileNormal | controllers/nomadcluster_controller.go:218-267 | Adds the finalizer, or sets name, endpoint with the port asked for or 6443, Ready, and the API server condition: True if online, else False with reason APIServerNotReady |
| ClusterController.CloseScope | controllers/nomadcluster_controller.go:97-102 | Exactly when Close succeeds, and what it leaves in the store whether it does or not |
| ClusterController.Reconcile | controllers/nomadcluster_controller.go:60-122 | Returns an error exactly if a read or Close fails; the stored object is the edit of ReconcileNormal; success leaves a cluster that has its finalizer published, and a deleted one gone |
| Poller.PollingGoesOn | pkg/nomad/scope/cluster.go:205-226 | Polling goes on exactly without a client or without a list; an unreadable or deleting Cluster and a list end it |
| Poller.StepKeepsInv | pkg/nomad/scope/cluster.go:172-202 | Every step keeps lock ownership, goroutine uniqueness and the map consistent |
| Poller.AbsentMeansNoGoroutine | pkg/nomad/scope/cluster.go:174-179 | Whoever finds a cluster absent from the map under the lock finds no goroutine for it |
| Poller.Reachable | pkg/nomad/scope/cluster.go:154-202 | The invariant holds in every state of every execution |
| Wakeup.Exclusive | pkg/nomad/scope/cluster.go:172-195 | Never two goroutines for one cluster; with the lock free the map lists exactly the clusters that have one |
| Wakeup.EventConservation | pkg/nomad/scope/cluster.go:179-194 | Goroutines spawned equal events sent plus goroutines that have not sent, for every cluster |
| Wakeup.SendsOnce | pkg/nomad/scope/cluster.go:187-190 | No goroutine sends twice |
| Wakeup.WakeupIsDecided | pkg/nomad/scope/cluster.go:174-195 | After the lookup no step but an outside event changes whether a wake-up will be pending |
| Wakeup.WakeupIff | pkg/nomad/scope/cluster.go:174-195 | A reconcile leaves a wake-up pending if and only if its lookup finds no entry, or a poller yet to send, or an event on its way |
| Wakeup.NoLostWakeup | controllers/nomadcluster_controller.go:260-264 | With a steady API server every not-ready finish of an eligible cluster leaves a poller yet to send or an event on its way |
| Wakeup.FlappingLosesWakeup | pkg/nomad/scope/cluster.go:185-194 | A run with a flapping API server that ends not ready with no poller to send and no event |
| PollerHost.Host.ReconcileWhenAPIServerIsOnline | pkg/nomad/scope/cluster.go:161-203 | With any interference a run of the protocol that spawns one goroutine exactly if the lookup finds no entry; does nothing for an initialised or deleting cluster |
| PollerHost.Host.PollAndTrigger | pkg/nomad/scope/cluster.go:180-195 | The goroutine is a run of the protocol; it polls on exactly while there is no client or no list, then sends one event for its cluster, and at its end the cluster is off the map |
| PollerHost.Host.CheckAPIServer | controllers/nomadcluster_controller.go:260-267 | Online exactly if the node list succeeds; a not-ready end leaves a wake-up pending under a steady API server |

## Left out

- The HTTP and SDK clients for Nomad and Consul: the stores are maps, and every call's outcome is free.
- Library internals: the cache behind reads, the Ready summary condition, the merge of owned conditions and the
  event recorder. Conditions keep status and reason, not severity or message.
- The content of a job beyond id, datacenter, MAC and user data, which is a fixed function of the machine's spec.
- Other finalizers than this controller's; an object goes when this one does.
- The failure domain map of a NomadCluster and the request mapping functions: simple map and filter facts.
- Manager setup, watches, predicates, webhooks, generated code, logging and real time; of a delay only the requeue
  remains.
- PollerHost.Host.PollAndTrigger: stops where the given answers or the others' schedule end, because the source may
  poll or wait for the lock without limit.
- The escaping of characters outside ASCII in the failure message.
- Machine names outside ASCII: each character of a name counts as one octet, as in the DNS labels that names are.
