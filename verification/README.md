# A model of the KubeSwift Cluster API provider

The provider turns Cluster API objects into KubeSwift virtual machines. Two controllers read and
write a shared API server in small steps while calls fail, the process restarts, and users and
KubeSwift change objects in between. This project models that protocol and proves what holds of
every run of it. `dafny verify dfyconfig.toml` checks everything.

## How it is built

| file | what it holds |
|---|---|
| `Names.dfy` | object keys, and the names and IDs derived from them |
| `GuestConfig.dfy` | a machine's configuration, the CEL rules of the CRD, the backend's checks |
| `GuestSpec.dfy` | rendering a configuration into a SwiftGuest, and reading it back |
| `GuestStatus.dfy` | what a SwiftGuest's status says |
| `ApiServer.dfy` | the objects, the calls the machine controller makes, and how a call can fail |
| `Controller.dfy` | the machine controller as a coroutine: one worker position per API call |
| `Protocol.dfy` | the whole system: workers, queue, watches, and the steps of everyone else |
| `Reconciler.dfy` | the machine controller's code, as methods that refine the coroutine |
| `Safety.dfy` | the invariant of every reachable world and what follows from it |
| `Seeds.dfy` | what a seed tells its guest, and how long that stays so |
| `FailureDomain.dfy` | where the failure domain of a provisioned machine comes from |
| `Retry.dfy` | a reconcile in which a call failed is tried again |
| `Lifecycle.dfy` | no orphans, and what is never rewritten, over whole runs |
| `Removal.dfy` | exactly when removing a machine object can leave something behind |
| `NodeIdentity.dfy` | the Node's provider ID, and what the read before its write is worth |
| `Attention.dfy` | exactly when a machine at rest hears of every change of its guest |
| `Isolation.dfy` | reconciles of other machines do not matter to a machine |
| `Sequential.dfy` | one undisturbed reconcile as a function of the store, and idempotence |
| `Contract.dfy` | what an undisturbed reconcile does, by the fields of the objects alone |
| `Trace.dfy` | the undisturbed calls of one reconcile, position by position |
| `Example.dfy` | a worker machine and what its first reconcile reads |
| `Orphan.dfy` | the run in which an orphan does arise |
| `Deletion.dfy` | the measure by which deletions end |
| `EndpointService.dfy` | the control-plane endpoint Service |
| `ClusterController.dfy` | the cluster controller and its runs |
| `ClusterSoundness.dfy` | endpoint and status of a cluster over runs, and where they can come apart |
| `ClusterLifecycle.dfy` | no Service outlives its cluster; the port and the origin of every endpoint |
| `Datapath.dfy` | what the two controllers do fits together |

A world holds the store, the workers (reconciles in flight, one per key at most), the work queue
and the guest that the last finished reconcile of each key read. A step is one API call of one worker
with one of three outcomes (it works, the request is lost, the reply is lost), a restart, or a
change by someone else: users creating, editing and deleting machines, KubeSwift reporting,
terminating and removing guests, Nodes joining, leaving and being claimed by another party, and
any change of the Cluster API objects and secrets. Steps that are not possible change nothing, so
a statement about `Run(w, es)` is one about every sequence `es` of events and any number of
machines and clusters.

The machine controller appears three times, and the three are proved to agree: as the coroutine
(`Controller.Resume`), as methods with the source's structure whose calls may fail and be
interleaved with anything (`Reconciler`), and, for undisturbed reconciles, as a plain function of
the store (`Sequential.Reconciled`). The methods use fields that are set step by step and a
deferred patch, as the source does; their contracts place them at the coroutine's positions, so
every theorem about runs is one about the code.

What a value means is stated once more without the functions that compute it: a guest's status
(`GuestStatus.Means`), the Service the configuration asks for (`EndpointService.AsConfigured`), a
Service's address (`EndpointService.ReachedAt`), a seed (`Seeds.Introduces`, `Seeds.PointsTo`), a
rendered guest (`GuestSpec.WellFormed`, `GuestSpec.RecoverConfig`) and a whole reconcile
(`Contract`). The theorems about runs speak in these terms.

## What is proved

* A machine's guest never exists without its seed (`GuestImpliesSeed`).
* Once its finalizer was stored, a machine never leaves a guest or a seed behind (`NoOrphan`).
  Without the stored finalizer this is false. `RemovalLeavesOrphan` says exactly when some run from
  the removal of an object leaves something: the finalizer was not stored, and either something had
  been made or a reconcile in flight can still make it. `FirstReconcileCanOrphan` constructs such a
  run for every new machine.
* Whenever no work is pending the status is what the guest read last gives, and a guest with the
  machine's label is then still the one that was read (`StatusMirrorsGuest`). A machine at rest
  goes on showing what its guest says, whatever others do, exactly when the guest has the label
  (`NoticedExactlyWhen`); `UnnoticedIsReachable` is a world in which a machine is provisioned and
  ready and its virtual machine is gone.
* From the start of any run, a Node's provider ID that has been set is never overwritten, against
  an API server that would accept any patch, unless another party sets it between a worker's read
  and its patch (`NodeIDWrittenOnce`). The exception is exact, for the run
  (`SafeExactlyWhenUncontested`) and for the patch (`NodeIDOverwrittenExactlyWhen`).
* Deleting all steps of other machines' reconciles from any run changes nothing for a machine
  (`OthersDoNotInterfere`).
* A second reconcile writes nothing (`ReconcileTwice`, for both controllers); the endpoint Service
  is written at most once in any run (`AtMostOneWrite`).
* Deletions of any number of machines have a rank sum that never rises and bounds the number of
  steps of progress (`FleetRankNeverRises`, `ProgressIsBounded`). Two reconciles around the
  guest's termination finish a deletion exactly when the controller can work on the machine
  (`DeletionCompletes`).
* The endpoint Service selects exactly its own cluster's control-plane guests, and Service port,
  target port, guest ports and the stored endpoint's port are one
  (`ServiceSelectsControlPlane`, `StoredEndpointReachesControlPlane`). When an endpoint's
  configuration changes under a living guest, mode or port, they still fit exactly when the guest's
  exposure is the one the new configuration gives (`LivingGuestFitsExactlyWhen`).
* Once its finalizer was stored, a cluster never leaves an endpoint Service behind
  (`NoServiceLeft`). A stored endpoint was set by a user or was the address of an in-sync Service
  (`EndpointHasOrigin`), and one with a host keeps one (`EndpointNeverCleared`).
* A provisioned cluster has an endpoint with a host (`ProvisionedHasEndpoint`), on runs that give
  its name to no new object while a reconcile of the former one is in flight. Without that it is
  false (`ProvisionedWithoutHostIsReachable`), because the deferred patch does not ask which object
  it reaches; `BreaksExactlyWhen` says exactly which patch breaks it first.
* The validator accepts exactly what the CEL rules admit (`ValidatorMatchesCel`), the legacy
  network fields are sugar (`DesugarPreservesGuest`), a guest determines the request it was
  rendered from (`RenderRoundTrip`, `SameGuestExactlyWhen`), and the backend accepts a machine
  exactly when the guest it would render is well formed and says all that was asked for
  (`AcceptsExactlyWhen`).
* A provisioned machine's failure domain is one that an owner it has named has had
  (`ProvisionedDomainIsAnOwners`), and its seed introduces it by name until somebody edits it
  (`SeedIntroducesItsMachine`).
* A reconcile in which a call failed ends with its key queued (`FailureEndsQueued`), unless that
  call was the read of the Cluster (`FailedCallIsRetried`).
* The controllers leave a Service alone exactly when it is as configured
  (`InSyncExactlyWhenAsConfigured`), and the cluster controller asks for one exactly when the
  machine controller exposes the control-plane guests, on the same port (`ModesAgree`).

## Assumptions

* Reads see the latest write (the source reads through a cache), and a request is either lost or
  takes effect before the next step: no write arrives late.
* Reconciles of one key are serialised. A watch event enqueues its key at once. A restart enqueues
  every machine.
* The deferred patch is one atomic store of the fields that differ between the object as read and
  as left; a finalizer cannot be added to an object being deleted.
* Only this provider creates guests with its machine label and seeds with its names; others may
  edit seeds but not delete them. Users do not write status, provider ID or this provider's
  finalizers. Guests without the label may exist under any name and carry any other label, a
  cluster's pool label included; such a guest is selected like the cluster's own.
* Kubernetes refuses to change a Node's provider ID that is set. The model does not rely on it: a
  patch is taken as it is, and a refusal appears as a lost request.
* Users replace the host of a KubeSwiftCluster's endpoint but do not remove it.
* Key names follow the Kubernetes naming rules (not empty, no slash, no newline); `ProviderIDNeedsKubeNames`
  shows why.

## Where the source disagrees with its documentation

* `spec.guestNamespace` is documented as the guests' namespace
  (`api/v1alpha1/kubeswiftcluster_types.go:25-28`, `docs/design/capi-kubeswift-architecture.md:90`),
  but no code reads it: guests live in the machine's own namespace. The model follows the code.
* A comment says that a Cluster event re-triggers a reconcile waiting for its cluster
  (`internal/controller/kubeswiftmachine_controller.go:76`), but Clusters are not watched. In the
  model a change of a Cluster enqueues nothing.
* `backend.Request.ProviderID` is documented as injected into the bootstrap data
  (`internal/backend/backend.go:37-40`); the backend does not use it.

## Model

| member | source | states |
|---|---|---|
| Names.ProviderIDRoundTrip | internal/controller/kubeswiftmachine_controller.go:127-128 | a provider ID has the documented form and decodes to the namespace and name of its machine |
| Names.ProviderIDInjective | internal/controller/kubeswiftmachine_controller.go:127-128 | distinct machines have distinct provider IDs |
| Names.ProviderIDNeedsKubeNames | internal/controller/kubeswiftmachine_controller.go:127-128 | with a slash in a name two machines would share an ID |
| Names.SeedKeyInjective | internal/backend/swiftguest.go:52 | distinct machines have distinct seeds |
| Names.PoolLabelInjective | api/v1alpha1/kubeswiftcluster_types.go:58-60 | distinct clusters have distinct selector values |
| GuestConfig.ValidateGPU | internal/backend/swiftguest.go:73-92 | accepts exactly when one backend is named and the tier is unset or pcie |
| GuestConfig.CountOne | internal/backend/swiftguest.go:77-86 | counting to one is the existence of exactly one |
| GuestConfig.ValidateInterfaces | internal/backend/swiftguest.go:99-120 | accepts exactly the lists with one primary, a network on every secondary and no legacy field |
| GuestConfig.IsPrimaryOnNAD | internal/backend/swiftguest.go:124-134 | the scan computes whether the primary interface rides a named network |
| GuestConfig.ValidatorMatchesCel | api/v1alpha1/kubeswiftmachine_types.go:52-145 | for lists of any length the backend accepts a decoded object exactly when all three CEL rules admit the submitted one |
| GuestSpec.RenderInterfaceList | internal/backend/swiftguest.go:434-447 | the appended list is the interface-wise rendering, in order |
| GuestSpec.RenderClaim | internal/backend/swiftguest.go:384-400 | the claim names the template before the claim and leaves unset fields out |
| GuestSpec.RenderLabels | internal/backend/swiftguest.go:485-495 | cluster and machine labels, and the pool label exactly for an exposed machine |
| GuestSpec.RenderSwiftGuest | internal/backend/swiftguest.go:329-431 | filling the spec in place gives the guest that the rendering function specifies |
| GuestSpec.OneGpuRef | internal/backend/swiftguest.go:377-402 | a validated GPU has a profile or exactly one claim reference, never both |
| GuestSpec.RenderWellFormed | internal/backend/swiftguest.go:137-158 | every guest rendered after validation has one primary, networks on all others, at most one GPU backend and never with a node name, the supported tier and access mode, and an exposed one has a nat binding and no named primary network |
| GuestSpec.FirstPrimaryIsThePrimary | internal/backend/swiftguest.go:128-132 | stopping at the first primary is right when there is exactly one |
| GuestSpec.PrimaryOnNADIsRendered | internal/backend/swiftguest.go:122-134 | the scan of the configuration holds exactly when the rendered primary has a network |
| GuestSpec.DesugarPreservesGuest | internal/backend/swiftguest.go:335-357 | replacing a legacy network field by its interface list keeps validity, exposure checks and the rendered guest |
| GuestSpec.RenderRoundTrip | internal/backend/swiftguest.go:329-431 | machine, cluster, desugared configuration and exposure can be read back from the guest |
| GuestSpec.SameGuestExactlyWhen | internal/backend/swiftguest.go:329-431 | two validated requests render to one guest exactly when machine, cluster, exposure and desugared configuration agree |
| GuestSpec.AcceptsExactlyWhen | internal/backend/swiftguest.go:137-158 | a machine is accepted exactly when the guest it would render is well formed, its configuration can be read back in full, and the tier is supported |
| GuestStatus.ScanUnresolved | internal/backend/swiftguest.go:210-224 | finds the first unresolved condition, and none exactly when there is none |
| GuestStatus.ObserveMeans | internal/backend/swiftguest.go:168-224 | for every status, by its fields: up exactly when running with an address that works outside the pod, with the pod's address in place of a private one; broken exactly when failed; otherwise waiting for the first unresolved condition, or provisioning |
| GuestStatus.PrivateAddressDoesNotMatter | internal/backend/swiftguest.go:186-206 | a change of an address that is private to its pod changes no conclusion |
| Controller.CallsRunOut | internal/controller/kubeswiftmachine_controller.go:54-103 | every reconcile is a bounded number of calls |
| Reconciler.Api.Call | internal/controller/kubeswiftmachine_controller.go:58-60 | a call of the code, with any steps of others before it and any fault in it, is the protocol's next step |
| Reconciler.KubeSwiftMachine.SetNotReady | internal/controller/kubeswiftmachine_controller.go:244-252 | sets Provisioned and Ready to false and leaves the provider ID and the addresses |
| Reconciler.Reconcile | internal/controller/kubeswiftmachine_controller.go:54-103 | from start to deferred patch the code makes the protocol's calls and ends with its verdict |
| Reconciler.Load | internal/controller/kubeswiftmachine_controller.go:57-87 | gates on owner, cluster label, cluster, pause and backend type, in this order |
| Reconciler.ReconcileNormal | internal/controller/kubeswiftmachine_controller.go:105-179 | the in-memory object at the patch is the protocol's, on every path |
| Reconciler.ReconcileGuest | internal/controller/kubeswiftmachine_controller.go:135-178 | backend result, status and Node step together reach the protocol's patch |
| Reconciler.ReconcileDelete | internal/controller/kubeswiftmachine_controller.go:181-199 | the finalizer is dropped only when the backend is done |
| Reconciler.CheckBootstrapData | internal/controller/kubeswiftmachine_controller.go:204-214 | a missing secret or key is an error before the backend is called |
| Reconciler.ControlPlaneExposure | internal/controller/kubeswiftmachine_controller.go:219-242 | the exposure for control-plane machines of Service-mode clusters only |
| Reconciler.BackendReconcile | internal/backend/swiftguest.go:137-184 | checks, seed, guest, verdict on the status, in this order |
| Reconciler.Configured | internal/backend/swiftguest.go:138-158 | all checks that precede the first call |
| Reconciler.EnsureSeedProfile | internal/backend/swiftguest.go:254-285 | reads, then creates or moves the seed to the secret reference |
| Reconciler.EnsureSwiftGuest | internal/backend/swiftguest.go:308-323 | returns the guest found or the one created |
| Reconciler.BackendDelete | internal/backend/swiftguest.go:228-250 | removes the seed only after seeing the guest absent |
| Reconciler.EnsureNodeProviderID | internal/controller/workload_node.go:28-78 | reads the kubeconfig, patches a Node without an ID, leaves any other, and says whether to retry |
| Reconciler.PatchEmptyProviderID | internal/controller/workload_node.go:55-77 | the part on the workload cluster: read the Node, return early on any ID, patch an empty one |
| Reconciler.ReconcileSafely | internal/controller/kubeswiftmachine_controller.go:54-103 | code started in a reachable world ends in a reachable world |
| Safety.CallWrites | internal/backend/swiftguest.go:228-323 | which objects a reconcile can write at each of its positions |
| Safety.CallFrame | internal/backend/swiftguest.go:52-52 | a call for one machine changes no machine, guest or seed of another |
| Safety.StepKeepsCell | internal/controller/kubeswiftmachine_controller.go:54-199 | every step of anyone keeps the invariant of every machine |
| Safety.ReachableInv | internal/controller/kubeswiftmachine_controller.go:54-199 | the invariant holds in every reachable world |
| Safety.GuestImpliesSeed | internal/backend/swiftguest.go:160-166 | in every reachable world a machine's guest, even a terminating one, has its seed, names it and is well formed |
| Safety.StatusConsistent | internal/controller/kubeswiftmachine_controller.go:149-166 | Provisioned agrees with Ready, and true implies one InternalIP and the machine's own provider ID |
| Safety.StatusMirrorsGuest | internal/controller/kubeswiftmachine_controller.go:135-178 | with no work pending after a reconcile that read a guest, the status is what the fields of that guest's status give, and if the guest's label names the machine it is the stored guest as it is now |
| Seeds.NewSeedMeans | internal/backend/swiftguest.go:287-305 | a new seed is a NoCloud seed whose metadata reads back as the machine's name, twice, and takes the cloud-init from the bootstrap secret alone |
| Seeds.IntroducesOne | internal/controller/workload_node.go:55 | the host name in the seed is the name of the Node the controller looks for, and introduces one machine of the namespace |
| Seeds.MigrationMeans | internal/backend/swiftguest.go:264-273 | a seed is left alone exactly when it points at the secret and carries no data; migrating makes it so and keeps the rest |
| Seeds.SeedIntroducesItsMachine | internal/backend/swiftguest.go:252-305 | on any run from an initial world a machine's seed introduces that machine until somebody edits it |
| FailureDomain.ProvisionedDomainIsAnOwners | internal/controller/kubeswiftmachine_controller.go:160 | on any run from an initial world a provisioned machine's failure domain is one that an owner the object has named has had |
| Retry.FailedCallIsRetried | internal/controller/kubeswiftmachine_controller.go:57-97 | after a failed call the key is queued, or will be after the patch, exactly when that call was not the read of the Cluster or the key was queued anyway |
| Retry.FailureEndsQueued | internal/controller/kubeswiftmachine_controller.go:93-147 | whatever others do and whatever becomes of the patch, a reconcile in which another call failed ends with its key queued |
| Lifecycle.StepKeepsGuarded | internal/controller/kubeswiftmachine_controller.go:181-199 | each step leaves the machine held by its finalizer, or everything made for it gone for good |
| Lifecycle.NoOrphan | internal/backend/swiftguest.go:226-250 | once its finalizer was stored, a machine that is gone has no guest and no seed, for the rest of every run |
| Removal.RemovalLeavesOrphan | internal/controller/kubeswiftmachine_controller.go:93-109 | some run from the removal of an object leaves a guest or a seed, with no work outstanding, exactly when the finalizer was not stored and something had been made or a reconcile in flight, by its position and what it has read, can still make it |
| Removal.MakesSomething | internal/backend/swiftguest.go:160-166 | a reconcile in flight that has passed what the object decides goes on to create the seed on some run, object or no object |
| Removal.SterileRun | internal/controller/kubeswiftmachine_controller.go:54-147 | with nothing left and no such reconcile, no run makes anything for a removed object |
| Lifecycle.ProviderIDNeverChanges | internal/controller/kubeswiftmachine_controller.go:158 | once set, the provider ID stays for the life of the object |
| NodeIdentity.NodeWrite | internal/controller/workload_node.go:55-77 | a worker writes only its own machine's Node, and an ID that decodes to its machine; where no other party's ID has come in since its read, only from empty |
| NodeIdentity.GetsToWrite | internal/controller/workload_node.go:62-72 | a worker comes to write only by reading an empty ID |
| NodeIdentity.NodeIDWrittenOnce | internal/controller/workload_node.go:55-77 | on any run from an initial world, an ID set at some point stays as long as the Node is there, if no step of the run sets a foreign ID between a worker's read and its patch; the API server is not assumed to refuse a change |
| NodeIdentity.SafeExactlyWhenUncontested | internal/controller/workload_node.go:55-77 | at no point of a run is a worker one call away from overwriting an ID, exactly when the run has no such step |
| NodeIdentity.NodeIDOverwrittenExactlyWhen | internal/controller/workload_node.go:55-77 | the call after a worker's read overwrites an ID exactly when the read found none, others then gave the Node a foreign one, and the patch arrives |
| Lifecycle.GuestNeverRewritten | internal/backend/swiftguest.go:308-323 | spec and labels of a guest never change while it exists |
| Attention.NoticedExactlyWhen | internal/controller/kubeswiftmachine_controller.go:257-263 | a machine at rest goes on showing what its guest says, on every run of others' steps, exactly when the guest's label names it |
| Attention.UnlabelledGoesUnnoticed | internal/controller/kubeswiftmachine_controller.go:254-263 | reports on a guest without the label, its termination and its end enqueue nothing and leave the machine as it is |
| Attention.ReconcileSettles | internal/controller/kubeswiftmachine_controller.go:105-179 | one undisturbed reconcile of a machine whose guest is up writes everything there is to write |
| Attention.ComesToRest | internal/controller/kubeswiftmachine_controller.go:158-178 | after two such reconciles the machine is provisioned, in its owner's failure domain, with no work pending |
| Attention.UnnoticedIsReachable | internal/controller/kubeswiftmachine_controller.go:254-263 | a reachable world with a provisioned machine, no pending work and no guest any more |
| Orphan.FirstReconcileCanOrphan | internal/controller/kubeswiftmachine_controller.go:93-109 | any new machine deleted before its first patch is left with guest and seed and no pending work |
| Orphan.OrphanIsReachable | internal/controller/kubeswiftmachine_controller.go:93-109 | such a world is reachable |
| Isolation.WritesStayHome | internal/backend/swiftguest.go:228-323 | every write of a machine's reconcile is to the machine, its guest, its seed, or its Node in its own cluster |
| Isolation.ForeignStep | internal/backend/swiftguest.go:254-323 | a step of another machine's reconcile is invisible to a machine |
| Isolation.StepAgrees | internal/controller/kubeswiftmachine_controller.go:54-199 | a machine's own steps depend only on what it can see |
| Isolation.OthersDoNotInterfere | internal/controller/kubeswiftmachine_controller.go:54-199 | purging other machines' reconciles from a run changes nothing for a machine |
| Sequential.DriveIsReconciled | internal/controller/kubeswiftmachine_controller.go:54-199 | the coroutine without faults computes the plain function |
| Contract.TurnsAway | internal/controller/kubeswiftmachine_controller.go:57-87 | a machine without owner, cluster, or known backend, or a paused one, is left alone, and tried again in the two cases that are errors |
| Contract.StopsAtGates | internal/controller/kubeswiftmachine_controller.go:109-147 | which gate stops a live machine, by the fields of owner, Cluster, secret and infrastructure, what the machine then says, and whether it is tried again |
| Contract.Builds | internal/backend/swiftguest.go:160-166 | past the gates there is a seed that points at the owner's secret, and a guest: the one there was, or a new one that says what the configuration asks for and exposes the API server exactly for a control-plane machine in Service mode |
| Contract.Shows | internal/controller/kubeswiftmachine_controller.go:144-166 | the status goes with the guest; provider ID, addresses and failure domain change only for a guest that is up, to the machine's, the guest's and the owner's |
| Contract.Registers | internal/controller/workload_node.go:33-78 | the Node gets the machine's ID exactly when the guest is up, the workload cluster can be reached and the Node has none; what is tried again, and when |
| Contract.Deletes | internal/backend/swiftguest.go:228-250 | of a machine being deleted first the guest goes, then, with it gone, the seed and the finalizer |
| Sequential.EnsureSeedTwice | internal/backend/swiftguest.go:254-305 | from any seed one pass gives no inline data and the desired reference, keeps all other fields and seeds, writes nothing where nothing was wrong, makes a missing one that introduces the machine; a second pass writes nothing |
| Sequential.ReconcileTwice | internal/controller/kubeswiftmachine_controller.go:105-179 | from any store a second reconcile of a live machine changes machine, seed, guest and Node no more |
| Sequential.RoundReconciles | internal/controller/kubeswiftmachine_controller.go:54-103 | an undisturbed reconcile in the system has the function's effect and requeues unless it is finished |
| Sequential.SecondRoundWritesNothing | internal/controller/kubeswiftmachine_controller.go:105-179 | idempotence as a statement about runs |
| Deletion.RankNeverRises | internal/backend/swiftguest.go:228-250 | no step raises the rank of a machine being deleted |
| Deletion.FleetStep | internal/backend/swiftguest.go:228-250 | for a fleet, every step of progress lowers the rank sum |
| Deletion.FleetRankNeverRises | internal/backend/swiftguest.go:228-250 | over whole runs the rank sum never rises |
| Deletion.ProgressIsBounded | internal/backend/swiftguest.go:228-250 | a run has at most as many steps of progress as the rank sum, at most three a machine |
| Deletion.DeletedRound | internal/controller/kubeswiftmachine_controller.go:181-199 | an undisturbed deletion makes a live guest terminate, waits for a terminating one, and drops seed and finalizer when it is absent |
| Deletion.DeletionCompletes | internal/controller/kubeswiftmachine_controller.go:54-199 | for a machine with a stored finalizer, a reconcile, the guest's termination and another reconcile finish the deletion exactly when owner, label and Cluster are there, nothing is paused and the backend type is known |
| EndpointService.BuildControlPlaneService | internal/controller/endpoint_service.go:101-133 | the conditional assignments give the desired Service with its controller reference |
| EndpointService.NewServiceMeans | internal/controller/endpoint_service.go:101-133 | a new Service is as configured, by the configuration's fields, with label and owner and no NodePort of its own |
| EndpointService.MergeServicePorts | internal/controller/endpoint_service.go:168-183 | map and in-place loop compute the port-wise merge, in length and order of the desired ports |
| EndpointService.LastNodePortMeans | internal/controller/endpoint_service.go:169-174 | the kept NodePort is the last assigned one of that name |
| EndpointService.MergedPortMeans | internal/controller/endpoint_service.go:168-183 | a merged port is the desired one but for its NodePort, which is the desired one if there is one and else the last assigned one of that name |
| EndpointService.MergeTwiceIsOnce | internal/controller/endpoint_service.go:168-183 | merging again changes nothing for all existing ports, exactly when no name is desired both with and without a NodePort |
| EndpointService.WritesOnlyWhenNeeded | internal/controller/endpoint_service.go:87-93 | no write happens exactly when the Service already provides what the controller owns |
| EndpointService.InSyncExactlyWhenAsConfigured | internal/controller/endpoint_service.go:69-93 | a Service is left alone exactly when type, port, selector, class and annotations are what the configuration says or its defaults |
| EndpointService.UpdateKeepsOthers | internal/controller/endpoint_service.go:69-85 | an update keeps labels, owner, addresses and the annotations of others |
| EndpointService.OneWriteSettles | internal/controller/endpoint_service.go:51-98 | from any Service, after one accepted write no call writes, whatever the API server assigns and others annotate |
| EndpointService.EnsuredInSync | internal/controller/endpoint_service.go:57-97 | a returned Service is stored and in sync |
| EndpointService.AtMostOneWrite | internal/controller/endpoint_service.go:48-98 | any run from any Service has at most one write |
| EndpointService.EnsureControlPlaneService | internal/controller/endpoint_service.go:51-98 | the code has the specified effect, writes at most once and not at all when in sync, and is an error exactly when a call failed |
| EndpointService.Overlay | internal/controller/endpoint_service.go:69-85 | setting the owned fields on the copy gives the specified update |
| EndpointService.MergeAnnotations | internal/controller/endpoint_service.go:78-85 | the copying loop overlays the configured annotations and removes none |
| EndpointService.DeleteControlPlaneService | internal/controller/endpoint_service.go:137-143 | an error exactly when its one call failed; otherwise the Service is absent afterwards, whether it was there or not |
| EndpointService.IngressAddressMeans | internal/controller/endpoint_service.go:149-158 | the first entry with an address decides, its IP before its hostname |
| EndpointService.AddressMeans | internal/controller/endpoint_service.go:148-164 | by the Service's fields: a load balancer's address is that of its first addressed ingress entry and nothing else, any other Service's is its ClusterIP, if it has one |
| EndpointService.OtherAddressDoesNotMatter | internal/controller/endpoint_service.go:148-164 | a load balancer's ClusterIP and another Service's ingress change no address |
| EndpointService.AddressNotEmpty | internal/controller/endpoint_service.go:148-164 | an address is never empty |
| EndpointService.ControlPlaneServiceAddress | internal/controller/endpoint_service.go:148-164 | the scan computes the specified address |
| ClusterController.KubeSwiftCluster.MarkProvisioned | internal/controller/kubeswiftcluster_controller.go:126-133 | sets Provisioned and Ready and nothing else |
| ClusterController.KubeSwiftCluster.MarkNotProvisioned | internal/controller/kubeswiftcluster_controller.go:135-143 | clears Provisioned and Ready and leaves the endpoint |
| ClusterController.KubeSwiftCluster.ReconcileServiceEndpoint | internal/controller/endpoint_service.go:28-46 | adopts the address of the Service it got back, or waits, or fails without a trace |
| ClusterController.KubeSwiftCluster.ReconcileNormal | internal/controller/kubeswiftcluster_controller.go:87-105 | Service and in-memory object after a normal reconcile, on every path |
| ClusterController.KubeSwiftCluster.ReconcileDelete | internal/controller/kubeswiftcluster_controller.go:107-116 | the finalizer is dropped only when the Service is gone |
| ClusterController.Reconcile | internal/controller/kubeswiftcluster_controller.go:40-85 | nothing is touched without an owner, when externally managed or when paused |
| ClusterSoundness.ProvisionedHasEndpoint | internal/controller/kubeswiftcluster_controller.go:87-105 | a provisioned cluster has an endpoint with a host, and Provisioned agrees with Ready, on every run that does not give the name to a new object during a reconcile of the former one |
| ClusterSoundness.BreaksExactlyWhen | internal/controller/kubeswiftcluster_controller.go:71-85 | on any run, reuse of the name included, the first step that breaks this is exactly a patch that turns Provisioned on for a host the object no longer has, or changes Ready alone on an object with another Provisioned |
| ClusterSoundness.ProvisionedWithoutHostIsReachable | internal/controller/kubeswiftcluster_controller.go:71-105 | a run of five steps to a provisioned cluster without an endpoint |
| ClusterController.ProvisionedExactlyWhen | internal/controller/kubeswiftcluster_controller.go:87-105 | by the fields: what a reconcile of a live object says, and with which reason, in each mode, and the endpoint it adopts; after a failure only the finalizer |
| ClusterController.MakesServiceExactlyWhen | internal/controller/kubeswiftcluster_controller.go:87-124 | where there is none, a reconcile whose calls succeed leaves a Service exactly when the mode is Service |
| ClusterSoundness.EndpointNeverCleared | internal/controller/kubeswiftcluster_controller.go:96-104 | on any run from an initial world, an endpoint with a host keeps one as long as the object exists |
| ClusterController.EndpointComesFromService | internal/controller/endpoint_service.go:43 | an endpoint is written only in Service mode, from the stored Service's address and the configured port |
| ClusterController.ExternalModeSparesEndpoint | internal/controller/kubeswiftcluster_controller.go:96-104 | outside Service mode a reconcile leaves the endpoint, also one that users change meanwhile |
| ClusterController.ReconcileTwice | internal/controller/kubeswiftcluster_controller.go:87-105 | a second reconcile after a successful one writes neither Service nor object |
| ClusterLifecycle.NoServiceLeft | internal/controller/kubeswiftcluster_controller.go:107-116 | once its finalizer was stored, a cluster that is gone has no endpoint Service, for the rest of every run |
| ClusterLifecycle.StoredAtConfiguredPort | internal/controller/endpoint_service.go:43 | on any run with a fixed configuration every stored endpoint has the configured port |
| ClusterLifecycle.ProvisionedAtConfiguredPort | internal/controller/endpoint_service.go:43-44 | and that of a provisioned cluster whose name is not reused in flight has a host |
| ClusterLifecycle.EndpointHasOrigin | internal/controller/endpoint_service.go:28-46 | on any run a stored endpoint was set by a user, or at an earlier step there was a Service as configured then, reached at that host and on that port |
| Datapath.RunKeepsPlan | internal/controller/kubeswiftmachine_controller.go:219-242 | along a fixed plan of clusters every guest carries the labels and ports the plan gives it |
| Datapath.ModesAgree | internal/controller/kubeswiftmachine_controller.go:216-242 | for every configuration the cluster controller makes a Service exactly when the machine controller exposes the cluster's control-plane guests, with the same port and pool |
| Datapath.ServiceSelectsControlPlane | internal/controller/endpoint_service.go:101-123 | a Service in sync selects, of all guests in its namespace, exactly its own cluster's control-plane guests and those another party pooled with them, and reaches its own on one and the same port |
| Datapath.StoredEndpointReachesControlPlane | internal/controller/endpoint_service.go:28-46 | on any runs of both controllers along the plan the stored endpoint of a Service-mode cluster has the port on which every control-plane guest is exposed and every Service in sync reaches it, and a host that was such a Service's address unless a user set it |
| Datapath.AdoptedEndpointReachesControlPlane | internal/controller/endpoint_service.go:28-46 | when adopted, the endpoint's host too is the address of a stored Service that reaches those guests |
| Datapath.LivingGuestFitsExactlyWhen | internal/controller/kubeswiftmachine_controller.go:216-242 | after any change of the endpoint's mode or port, a guest that lives on is reached by the Service the new configuration asks for, or unexposed where it asks for none, exactly when its exposure is the one the new configuration gives |

## Left out

- ClusterSoundness.ProvisionedHasEndpoint: users unsetting the host of an endpoint are not modelled, because a user could then always undo what the controller reported.
- Safety.StatusMirrorsGuest: of a guest without the machine's label it says only that the status is what the guest gave when last read, because the source does not watch such a guest; and it says nothing of a machine that waits at a gate before its guest is read; Clusters are not watched, so there is no wake-up for the cluster-infrastructure gate.
- Deletion.DeletionCompletes: no fairness is modelled, so that the steps do happen is not a theorem; that only finitely many are needed is.
- EndpointService.ServiceApi.Put: conflicts with concurrent writers appear as refused writes, so a reconcile's Get and its write are one step of the cluster controller's runs.
- Stale caches and writes that arrive after their caller has given up.
- The separate requests of the patch helper (metadata and spec, status, conditions): one atomic store stands for them.
- Error texts, log lines, condition timestamps and generations; the message of an unresolved reference is modelled without the prefix that names the guest.
- Unstructured objects with fields of the wrong type: guests and seeds are records, and an absent string reads as empty, as the source's accessors do.
- Labels on seeds, which no code reads.
- Parsing of kubeconfigs and building of workload clients: one flag says whether they succeed.
- Integer widths: ports are int32 in the source and are only compared and widened to int64, never computed with.
- Uniqueness of interface names and the limit of 16 interfaces, which only the CRD checks.
- Owner references beyond the names they hold, and garbage collection of the Service by its owner reference.
- The template webhook, manager start-up, flags, metrics, RBAC and manifests.
