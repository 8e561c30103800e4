# FDU orchestration of fog05

A model of how fog05 deploys function units (FDUs) on nodes, and proofs about it: the network
resource graph of the dummy network plugin, the instance lifecycle of the dummy hypervisor, the
agents that call the plugins and wait for the global store to follow, the entity jobs that drive
many FDUs over many nodes, and the string-keyed stores underneath.

## The layers

| module | what it models |
|---|---|
| `Model` | identifiers, errors, descriptors and records shared by all layers |
| `Network`, `NetworkAnswers`, `NetworkUndo`, `NetworkPlugin` | namespaces, interfaces and connection points that refer to each other by UUID; every plugin operation as a function on the store, the laws of these functions, and the plugin as an object with one method per operation |
| `Hypervisor`, `HypervisorPlugin`, `Conservation` | define, configure, start, stop, clean and undefine on one node, with the two allocation loops; the plugin as an object; what configuring and cleaning do to resources |
| `Scheduling` | the compatibility check of one node and the selection of candidates |
| `Protocol`, `Runs`, `Replication`, `Resources`, `Restoration`, `Identity`, `Integrity` | the whole system as a step system (`World`, `Label`, `Next`), its runs, and what holds in every reachable state |
| `Calls`, `AgentSteps`, `Progress`, `Agent` | what one call asks of the system and leaves behind, that nothing gets stuck, and the class `Cluster`: agent operations with their poll loops, interleaved with everybody else's steps |
| `Entities`, `Descheduling`, `RoundTrip` | scheduling and descheduling an entity |
| `Location`, `Races` | what depends on the node that is called, and runs from the start that show how exact conditions fail |
| `Plugins` | the agent's plugin index and the plugin catalog |
| `Paths`, `Store`, `StoreRuns` | paths and selectors, the key-value store, and its refinement of typed maps over runs |

A step of the system is one atomic access: a plugin call, the delivery of one subscription message,
the last read of a poll loop, the removal of a record, or one read or write of a catalog. A read that
an open call will act on later is kept in `World.held` until the call writes or gives up, so whatever
others do between the two is a run of its own. `Cluster` keeps a ghost history of all steps since the
start; `Others` and `Sleep` let any other client take any number of permitted steps, and the
operations call them between every two awaited accesses. Node infos, node statuses, plugins and images
do not change during a run, so reading them is no step.

## Hypotheses

- `Uuid::new_v4` is fresh. Draws are parameters of the steps and must not have been issued before. A
  `Cluster` draws from a `Random` of its caller, which may be any function of the UUIDs in use, and its
  methods answer `UUIDError("collision")` exactly when what they draw is in use at that moment; nothing
  is assumed about it, and as that set grows with every draw that is used, any sequence of draws is such
  a function. Results that need free draws say so (`FreeDraws`).
- UUIDs have the text form of section 3 of RFC 4122.
- Each plugin RPC is atomic. RPCs do not fail or time out by themselves.
- The subscription is active before the first plugin write; delivery is first-in first-out and
  reliable, and never concerns deletions.
- Operations on one instance are serialised, as the clients do at fog05-fosctl/src/fim.rs:119-121,
  fog05-fosctl/src/fim.rs:373-375 and fog05-rest/src/main.rs:212-214. Where a result needs this it
  says so with `SerialRun`, `Serial` or a quiet instance; what happens without it is in
  `Replication.ResurrectionIff` and `Races.RecordComesBack`. It says nothing about catalogs: defining,
  instantiating and offloading overlap freely.
- `remove_instance` reads the record to find its path and then deletes it; the two are one step, which
  is exact because an instance's path never changes (`Identity.ReachableOneFdu`).
- The hypervisor is the network plugin's only client wherever conservation is claimed.
- A node runs one hypervisor plugin. It may be registered under several names, but there is one cache
  and one instance store a node (`Runs.CacheIsLocalStore`).
- A well-formed descriptor has unique connection-point ids, and each interface's `cp_id` names one of
  them. Results that need it say so (`WellFormedRun`, `WellFormedDescriptor`), and
  `Conservation.ConfigureConservesIff` shows that nothing weaker would do.
- Every node advertises itself with an agent service of its own (`Routed`).

## What the code does differently from what its names suggest

- The remote branch of `undefine_fdu` asks the owner to clean the instance, not to undefine it
  (fog05-agent/src/agent.rs:1386): `Location.UndefineElsewhereSameIff`.
- The interface check folds without its accumulator (fog05-agent/src/agent.rs:930-936), so the last
  bridged or physical interface decides: `Scheduling.FacesCheckWrongIff`.
- The processor count is cast to eight bits (fog05-agent/src/agent.rs:883-884):
  `Scheduling.CpuCountRightIff`.
- `delete_virtual_bridge` reads the kind from the global store and removes from the local one
  (fog05-sdk/examples/dummy-network.rs:418-422): `Network.BridgeDeletionKeepsPairingIff`. No code in
  this repository writes interfaces into the global store, and without such a writer it always answers
  NotFound: `NetworkUndo.CreateThenDeleteBridgeIff`.
- An interface attached to a second bridge stays listed by the first one
  (fog05-sdk/examples/dummy-network.rs:630-680): `NetworkUndo.OldEntryArises`.
- Deleting a VETH end inside a namespace leaves the other end in the namespace's list
  (fog05-sdk/examples/dummy-network.rs:893-899): `NetworkUndo.CreateThenDeleteInNamespaceIff`.
- `clean_fdu` leaves `hypervisor_specific` set (fog05-sdk/examples/dummy-hypervisor.rs:268-273):
  `Conservation.ConfigureThenCleanRecord`.
- When an entity job fails, the ERROR record is built from the copy made before it started, so it
  lists no instances although some run (fog05-agent/src/agent.rs:1033 and :1043):
  `Entities.ScheduleEntity`.
- `define_fdu`, `schedule_entity`, `offload_fdu` and `offload_entity` read first and write later, so
  two of them can pass each other and leave a reference to something that is gone
  (fog05-agent/src/agent.rs:1006-1018, :1182-1206 and :1389-1419): `Integrity.OpenCallsBreakNamesIff`,
  `Integrity.OpenCallsBreakEntitiesIff`, `Races.OffloadAfterRead`, `Races.DefineAfterListing`,
  `Races.OffloadAfterUndefine`, `Races.OffloadEntityAfterRead`.
- The clients delete an instance by stop, clean and undefine through one randomly chosen node
  (fog05-fosctl/src/fim.rs:365-375, fog05-rest/src/main.rs:205-214), which works on the owner only:
  `Location.DeleteInstance`.
- Registering a catalogued UUID under a second kind splits index and catalog
  (fog05-agent/src/agent.rs:605-652): `Plugins.RegisterAgreesIff`, `Plugins.RegisteredTwice`.

## Model

| member | source | states |
|---|---|---|
| Network.EveryOperationKeeps | fog05-sdk/examples/dummy-network.rs:147-909 | every networking operation, also when it returns an error, keeps: each record under its own UUID, VETH pairing a total symmetric irreflexive matching, every live back-pointer covered by the list it points to, private namespaces apart |
| Network.EveryRunKeeps | fog05-sdk/examples/dummy-network.rs:147-909 | the same over any sequence of operations from the empty store, with fresh draws and bridges deleted only where global and local kinds agree |
| Network.BridgeDeletionKeepsPairingIff | fog05-sdk/examples/dummy-network.rs:416-428 | deleting a bridge keeps pairing, and with it the whole graph well formed, unless, and only unless, the global store calls a bridge what is locally one end of a pair |
| Network.DeletingOneEndRemovesBoth | fog05-sdk/examples/dummy-network.rs:376-388 | deleting either end of a VETH pair removes exactly the two ends, whichever end is named, and leaves no VETH without its partner |
| NetworkAnswers.OperationAnswers | fog05-sdk/examples/dummy-network.rs:147-909 | over all nineteen operations: NotFound exactly when a record that is named, or referred to through the named one, is missing, WrongKind exactly when what must be a bridge or a MACVLAN is not, NotConnected exactly when interface and namespace or bridge are not connected, AlreadyPresent exactly for a stored connection point; an error changes nothing but the interface that a move into the default namespace writes first |
| NetworkAnswers.OperationReach | fog05-sdk/examples/dummy-network.rs:147-909 | no operation writes, removes or adds a record other than those it names or creates, a VETH's partner, or the bridge it deletes |
| NetworkAnswers.InterfaceAnswers | fog05-sdk/examples/dummy-network.rs:193-680 | a successful operation on an interface returns what is stored afterwards, or what it removed; the exceptions are the global record of a deleted bridge and an interface that is its own bridge |
| NetworkAnswers.OtherAnswers | fog05-sdk/examples/dummy-network.rs:147-458 | the same for namespaces and connection points; no other operation adds or removes one |
| NetworkUndo.AttachEffect | fog05-sdk/examples/dummy-network.rs:630-650 | attaching succeeds exactly for a stored interface and a stored bridge, sets the parent, appends to the children, changes nothing else, and nothing at all on an error |
| NetworkUndo.AttachThenDetachIff | fog05-sdk/examples/dummy-network.rs:630-680 | detaching undoes attaching exactly when the interface is not the bridge itself, had no parent, and the bridge's list does not go on after an old entry of it |
| NetworkUndo.OldEntryArises | fog05-sdk/examples/dummy-network.rs:630-680 | attaching to two bridges in turn, detaching and attaching another interface leaves such an old entry |
| NetworkUndo.MoveThenBackIff | fog05-sdk/examples/dummy-network.rs:574-616 | moving into a namespace lists the interface there; moving back to the default namespace restores the store exactly when it came from there and the list does not go on after an old entry of it |
| NetworkUndo.BindThenUnbindIff | fog05-sdk/examples/dummy-network.rs:460-492 | binding changes only the interface's namespace; unbinding restores the store exactly when the interface was in the default namespace |
| NetworkUndo.CreateThenDelete | fog05-sdk/examples/dummy-network.rs:193-388 | creating an interface of any kind stores one record, or both ends of a pair, and deleting it restores the store |
| NetworkUndo.CreatedIsUsable | fog05-sdk/examples/dummy-network.rs:193-369 | for every kind a created interface has the given name, no parent and no namespace; attaching another interface to it succeeds exactly for a bridge, which then has it as its only child; deleting it as a MACVLAN succeeds exactly for a MACVLAN; it has a partner exactly for a VETH, and then they name each other; the tag of any other kind is kept; nothing else changes |
| NetworkUndo.CreatedInNamespaceIsUsable | fog05-sdk/examples/dummy-network.rs:682-879 | in a namespace the same, in that namespace, which lists everything created behind what it listed |
| NetworkUndo.DedicatedCreations | fog05-sdk/examples/dummy-network.rs:390-572 | creating a bridge or a MACVLAN by its own operation does what the general creation does |
| NetworkUndo.CreateThenDeleteOthers | fog05-sdk/examples/dummy-network.rs:147-458 | a namespace is created empty and a connection point with its five draws; deleting either right away restores the store |
| NetworkUndo.CreateThenDeleteMacvlan | fog05-sdk/examples/dummy-network.rs:538-572 | deleting a MACVLAN interface just created restores the store; on any stored interface the deletion does what the general one does exactly when the kind is MACVLAN |
| NetworkUndo.CreateThenDeleteBridgeIff | fog05-sdk/examples/dummy-network.rs:390-428 | deleting a bridge just created restores the store exactly when the global store has a bridge under its UUID; with no global interfaces every bridge deletion is NotFound and changes nothing |
| NetworkUndo.RenameThenBack | fog05-sdk/examples/dummy-network.rs:618-628 | renaming touches this interface's name only: the old name restores the store, and a second renaming hides the first |
| NetworkUndo.CreateThenDeleteInNamespaceIff | fog05-sdk/examples/dummy-network.rs:682-909 | in a namespace the same restores the interfaces, but the whole store exactly when the kind is not VETH, since the outer end stays listed |
| NetworkPlugin.DummyNetwork.CreateConnectionPoint | fog05-sdk/examples/dummy-network.rs:147-164 | the object keeps its resource graph well formed (`Valid`), and its new store and answer are those of `Network.CreateConnectionPoint` |
| NetworkPlugin.DummyNetwork.DeleteConnectionPoint | fog05-sdk/examples/dummy-network.rs:179-191 | the object removes the point, or answers NotFound and changes nothing, as `Network.DeleteConnectionPoint` does |
| NetworkPlugin.DummyNetwork.CreateNetworkNamespace | fog05-sdk/examples/dummy-network.rs:430-439 | the object stores an empty namespace, as `Network.CreateNamespace` does |
| NetworkPlugin.DummyNetwork.DeleteNetworkNamespace | fog05-sdk/examples/dummy-network.rs:446-458 | the object removes the namespace and leaves interfaces that name it alone, or answers NotFound |
| NetworkPlugin.DummyNetwork.CreateVirtualInterface | fog05-sdk/examples/dummy-network.rs:193-369 | the object stores one record, or both ends of a pair, and returns the inner one; what it can be used for is in `NetworkUndo.CreatedIsUsable` |
| NetworkPlugin.DummyNetwork.CreateVirtualInterfaceInNamespace | fog05-sdk/examples/dummy-network.rs:682-879 | the object also appends everything created to the namespace's list; NotFound without the namespace |
| NetworkPlugin.DummyNetwork.DeleteVirtualInterface | fog05-sdk/examples/dummy-network.rs:376-388 | the object removes the interface and a VETH's partner, or answers NotFound |
| NetworkPlugin.DummyNetwork.DeleteVirtualInterfaceInNamespace | fog05-sdk/examples/dummy-network.rs:881-909 | the object removes the interface, its partner and its list entry; NotConnected when interface and namespace do not name each other |
| NetworkPlugin.DummyNetwork.DeleteVirtualBridge | fog05-sdk/examples/dummy-network.rs:416-428 | the object reads the kind from the global store and removes from the local one; it stays well formed exactly unless the global store calls a bridge what is locally one end of a pair; WrongKind and NotFound change nothing |
| NetworkPlugin.DummyNetwork.BindInterfaceToConnectionPoint | fog05-sdk/examples/dummy-network.rs:460-471 | the object changes the interface's namespace only; the old namespace goes on listing it |
| NetworkPlugin.DummyNetwork.UnbindInterfaceFromConnectionPoint | fog05-sdk/examples/dummy-network.rs:473-492 | the object clears the namespace; NotConnected unless the interface is in the point's |
| NetworkPlugin.DummyNetwork.MoveInterfaceIntoNamespace | fog05-sdk/examples/dummy-network.rs:574-588 | the object changes the interface's namespace and appends it to the new list |
| NetworkPlugin.DummyNetwork.MoveInterfaceIntoDefaultNamespace | fog05-sdk/examples/dummy-network.rs:590-616 | the object clears the namespace and removes the list entry; the two late errors still leave the interface in the default namespace |
| NetworkPlugin.DummyNetwork.AttachInterfaceToBridge | fog05-sdk/examples/dummy-network.rs:630-650 | the object writes the interface, then the bridge read before it |
| NetworkPlugin.DummyNetwork.DetachInterfaceFromBridge | fog05-sdk/examples/dummy-network.rs:652-680 | the object clears the parent and removes the first list entry; four errors change nothing |
| HypervisorPlugin.DummyHypervisor.DefineFdu | fog05-sdk/examples/dummy-hypervisor.rs:67-93 | the object's network store, instance store, cache, FIFO and answer are those of the lifecycle operation |
| HypervisorPlugin.DummyHypervisor.UndefineFdu | fog05-sdk/examples/dummy-hypervisor.rs:95-108 | only a DEFINED instance is removed, and nothing is put into the FIFO |
| HypervisorPlugin.DummyHypervisor.ConfigureFdu | fog05-sdk/examples/dummy-hypervisor.rs:110-229 | the loops over connection points and interfaces compute the recursive allocation, for any descriptor and with every early exit |
| HypervisorPlugin.DummyHypervisor.CleanFdu | fog05-sdk/examples/dummy-hypervisor.rs:231-279 | the loops over interfaces and connection points compute the recursive release, with every early exit |
| HypervisorPlugin.DummyHypervisor.StartFdu | fog05-sdk/examples/dummy-hypervisor.rs:281-298 | CONFIGURED to RUNNING, TransitionNotAllowed otherwise |
| HypervisorPlugin.DummyHypervisor.StopFdu | fog05-sdk/examples/dummy-hypervisor.rs:315-331 | RUNNING to CONFIGURED, TransitionNotAllowed otherwise |
| Conservation.ConfigureFramed | fog05-sdk/examples/dummy-hypervisor.rs:117-228 | for any descriptor, configuring changes no earlier resource; it succeeds exactly when every cp_id names a connection point; on failure record, cache and FIFO are unchanged |
| Conservation.ConfigureEffect | fog05-sdk/examples/dummy-hypervisor.rs:146-225 | on success exactly one namespace, the drawn pairs and the drawn connection points are new, and the record owns them |
| Conservation.ConfiguredRecordRealises | fog05-sdk/examples/dummy-hypervisor.rs:167-218 | record interfaces match descriptor interfaces in order; each bound one is a VETH whose outer end is in the private namespace of the connection point its cp_id names |
| Conservation.CleanEffect | fog05-sdk/examples/dummy-hypervisor.rs:231-279 | cleaning an instance whose resources are stored never fails and removes exactly what its record owns |
| Conservation.ConfigureThenCleanRestoresIff | fog05-sdk/examples/dummy-hypervisor.rs:110-279 | configure then clean restores the network store exactly when the descriptor is well formed |
| Conservation.ConfigureThenCleanRecord | fog05-sdk/examples/dummy-hypervisor.rs:221-275 | it restores the instance record except hypervisor_specific, and puts exactly the two records into the FIFO |
| Conservation.ConfigureConservesIff | fog05-sdk/examples/dummy-hypervisor.rs:110-229 | configuring keeps the stored resources the disjoint union of what active records own exactly when the descriptor is well formed |
| Conservation.CleanNeverFails | fog05-sdk/examples/dummy-hypervisor.rs:231-279 | in a conserved store cleaning a CONFIGURED instance succeeds |
| Conservation.FailedConfigureLeaks | fog05-sdk/examples/dummy-hypervisor.rs:146-192 | a configure that stops early leaves its namespace behind, owned by nobody |
| Scheduling.FacesCheckIsLastFace | fog05-agent/src/agent.rs:910-937 | the coded interface check equals the check on the last bridged or physical interface, and is true without any |
| Scheduling.FacesCheckWrongIff | fog05-agent/src/agent.rs:928-937 | it differs from checking all exactly when a missing interface is followed by a last one that is present; it never rejects a node that has them all |
| Scheduling.FacesCheckWrongInput | fog05-agent/src/agent.rs:928-937 | such an input exists |
| Scheduling.CpuCountRightIff | fog05-agent/src/agent.rs:883-884 | the wrapped processor count decides every 8-bit requirement like the true one exactly when the count is below 256 or leaves remainder 255; 256 processors fail a requirement of one |
| Scheduling.CompatibleIff | fog05-agent/src/agent.rs:876-946 | a node is compatible exactly when it falls short of none of eight requirements, each compared with what the node has of that same resource: hypervisor, architecture, processors modulo 256, frequency, RAM, storage, image, faces |
| Scheduling.Thresholds | fog05-agent/src/agent.rs:883-896 | with everything else met the node is accepted exactly up to its own processors modulo 256, frequency, free RAM in MB and free root disk in GB, one at a time |
| Scheduling.RootDiskIsFirst | fog05-agent/src/agent.rs:889-896 | the disk compared is the first one mounted at the root |
| AgentSteps.CheckFduIff | fog05-agent/src/agent.rs:867-946 | on a node of the system: Ok(true) exactly when descriptor, info and status are there and the node falls short of nothing, Ok(false) for any single shortage, NotFound exactly when something is missing; a hypervisor counts as registered on that node, a file:// image as present on it |
| AgentSteps.CheckThresholds | fog05-agent/src/agent.rs:883-896 | the four thresholds for a catalogued descriptor with one size changed |
| Scheduling.CompatibleMonotone | fog05-agent/src/agent.rs:867-946 | a node that offers at least as much stays compatible, as long as it has fewer than 256 processors |
| Scheduling.EachNodeAskedOnce | fog05-agent/src/agent.rs:361-393 | with the caller advertised once, the services asked are exactly the advertised ones |
| Scheduling.NoCandidateIff | fog05-agent/src/agent.rs:385-414 | no candidate exactly when no asked node answered Ok(true) |
| Scheduling.CandidateAccepted | fog05-agent/src/agent.rs:385-414 | a candidate is the caller having accepted or another advertised service that accepted, and the mixed UUIDs cannot be confused |
| Runs.StepKeepsStructure | fog05-sdk/examples/dummy-hypervisor.rs:49-51 | every step keeps the plugin cache equal to the local store and every record under its own id on its own node |
| Runs.CacheIsLocalStore | fog05-sdk/examples/dummy-hypervisor.rs:49-51 | hence in every reachable state of any run |
| Runs.ApplyEffect | fog05-sdk/examples/dummy-hypervisor.rs:67-331 | a plugin call changes nothing but resources on an error, removes the instance on undefine, and otherwise puts exactly one record along an edge of the lifecycle |
| Runs.StepKeepsCoherent | fog05-agent/src/agent.rs:1182-1387 | every serialised step keeps, for every instance: at rest global and home record agree with nothing pending, in flight exactly the awaited record is pending or has arrived, removed nowhere |
| Runs.StepElsewhere | fog05-agent/src/agent.rs:1182-1387 | a step leaves every instance it is not about exactly as it was, in all stores |
| Replication.DeliveredThenPendingIsWritten | fog05-agent/src/agent.rs:128-142 | over every interleaving, delivered followed by pending equals what the plugin wrote |
| Replication.InstanceHistorySplits | fog05-sdk/src/zconnector/local.rs:535-574 | the same for the records of one instance, from the start |
| Replication.HistoriesAreLifecycles | fog05-sdk/examples/dummy-hypervisor.rs:67-331 | in every run the records written for an instance follow the lifecycle from DEFINED and end in the live record; what was applied globally is a prefix |
| Replication.GlobalConverges | fog05-agent/src/agent.rs:128-142 | a live instance's global record is the last one delivered, and with nothing pending it is the local record |
| Replication.NoResurrection | fog05-agent/src/agent.rs:1367-1381 | in a serialised run, once an undefine has removed the global record the instance is nowhere, and no continuation of any kind brings it back |
| Replication.GoneForever | fog05-sdk/src/zconnector/local.rs:546-563 | an instance that is nowhere stays so in every run |
| Replication.ResurrectionIff | fog05-sdk/src/zconnector/local.rs:546-563 | without serialisation deliveries can bring a removed record back exactly when a message about it is pending somewhere |
| Races.RecordComesBack | fog05-sdk/src/zconnector/local.rs:546-563 | a run from the start in which this happens: define, configure, clean, undefine, removal, and a late message |
| Replication.PollEndsOnOwnRecord | fog05-agent/src/agent.rs:1193-1206 | in a serialised run a poll can end exactly when its own call's record has arrived, and then reads that record |
| Replication.PollCanComplete | fog05-agent/src/agent.rs:1193-1206 | in every state of a serialised run every waiting call can be completed by deliveries alone |
| Resources.StepConserves | fog05-sdk/examples/dummy-hypervisor.rs:67-331 | every step with well-formed descriptors keeps conservation on every node |
| Resources.ReachableConserved | fog05-sdk/examples/dummy-hypervisor.rs:110-279 | in every reachable state a node's stored resources are exactly the disjoint union of those of its CONFIGURED and RUNNING records, and cleaning a CONFIGURED one succeeds |
| Restoration.RunKeepsOwn | fog05-sdk/examples/dummy-hypervisor.rs:110-331 | a run without plugin calls on an instance keeps its record and everything it owns unchanged |
| Restoration.RunRestores | fog05-sdk/examples/dummy-hypervisor.rs:67-331 | a run that spares the instances of the start and leaves no others has restored every node's instance, cache and network stores |
| Identity.ReachableOneFdu | fog05-sdk/examples/dummy-hypervisor.rs:67-331 | in every reachable state of any run all records of an instance, in local stores, messages and the global store, name one FDU |
| Integrity.StepKeepsNamesIff | fog05-agent/src/agent.rs:1182-1403 | any single step keeps every live instance's descriptor catalogued exactly when it is neither the removal of a descriptor with a live instance nor the plugin call of a define whose descriptor is gone |
| Integrity.StepKeepsEntitiesIff | fog05-agent/src/agent.rs:1006-1419 | any single step keeps every entity record's entity catalogued exactly when it neither removes an instantiated entity nor stores a record of one that is gone |
| Integrity.OpenCallsBreakNamesIff | fog05-agent/src/agent.rs:1182-1403 | from any reachable state, serialised or not, with all instances named, the calls that are open (the reads held and the calls in flight) can break the reference by going on and ending exactly when an open define's descriptor is gone, or an open offload that has listed nothing, or lists nothing once the open undefines have ended, meets an open define or a live instance of its descriptor |
| Integrity.OpenCallsBreakEntitiesIff | fog05-agent/src/agent.rs:1006-1419 | the same for entity records: exactly when an open schedule_entity's entity is gone, or an open offload_entity that has listed or would list nothing meets an open schedule_entity or a record of its entity |
| Integrity.ReachableIntegrity | fog05-agent/src/agent.rs:1182-1419 | when no offload of a descriptor overlaps a define of it, from the define's read to the delivery of its record, live instances name catalogued descriptors in every reachable state of a serialised run; likewise entity records, in any run, when no offload of an entity overlaps an instantiation |
| Races.OffloadAfterRead | fog05-agent/src/agent.rs:1182-1403 | a serialised run from the start: an offload between a define's read and its plugin call, ending with nothing under way and a live instance of no catalogued descriptor |
| Races.DefineAfterListing | fog05-agent/src/agent.rs:1389-1403 | a serialised run from the start: a define from its read to its return between an offload's listing and its removal, ending the same way |
| Races.OffloadAfterUndefine | fog05-agent/src/agent.rs:1367-1403 | a serialised run from the start to a state where all references hold, no define is open and the offload would still list an instance, and on, by nothing but the open undefine, offload and define ending, to a live instance of no catalogued descriptor |
| Races.OffloadEntityAfterRead | fog05-agent/src/agent.rs:1006-1419 | a serialised run from the start: an entity offload between schedule_entity's read and its first put, ending with a record of no catalogued entity |
| Location.LocationTransparency | fog05-agent/src/agent.rs:1209-1387 | configure, start, stop and clean, called on any node and polled to the end, leave the same world with the same answer as on the owner, forwarded at most once; an undefine away from the owner does what a clean at the owner does |
| Location.RequestAnswers | fog05-agent/src/agent.rs:1237-1365 | the agents' start, stop and clean return this answer when nobody else acts |
| Location.UndefineRequestAnswers | fog05-agent/src/agent.rs:1367-1387 | so does their undefine, on the owner and elsewhere |
| Location.UndefineElsewhereSameIff | fog05-agent/src/agent.rs:1367-1387 | undefine away from the owner leaves the same world with the same answer as at the owner exactly when neither can succeed: not hosted, or running |
| Races.UndefineElsewhereDiffers | fog05-agent/src/agent.rs:1382-1386 | a run from the start to a DEFINED instance whose undefine elsewhere is TransitionNotAllowed and changes nothing, while the owner's succeeds |
| Location.DeleteInstance | fog05-fosctl/src/fim.rs:365-375 | stop, clean and undefine through one node: it removes the instance only if that node is the owner; where no descriptor is ill-formed it fails only for what stops the instance from being stopped, cleaned and undefined, or with TransitionNotAllowed away from the owner; for a running, operable instance and nobody else acting it removes it exactly at the owner, and otherwise ends in TransitionNotAllowed with the instance left DEFINED |
| Agent.Cluster.Others | fog05-agent/src/agent.rs:1193-1206 | whatever others do, guarded instances and entity records are untouched, their messages do not move back, and reads that this client holds stay held |
| Agent.Cluster.Sleep | fog05-agent/src/agent.rs:1193-1206 | after one turn of waiting every guarded pending message is closer or handled |
| Agent.Cluster.Poll | fog05-agent/src/agent.rs:1193-1206 | the loop terminates, with the messages ahead as measure, on exactly the record the plugin call wrote, and leaves the instance at rest |
| Agent.Cluster.DefineFdu | fog05-agent/src/agent.rs:1182-1207 | NotFound, with nothing done, exactly when descriptor or hypervisor was missing at the read; otherwise a collision exactly when the UUID drawn at the plugin call is in use then, and else Ok with the new DEFINED instance under that UUID, at rest on this node; others act between the read and the plugin call |
| Agent.Cluster.Operate | fog05-agent/src/agent.rs:1209-1365 | configure, start, stop and clean, here or forwarded, with others acting between all accesses: NotFound exactly for what was missing when it was read; otherwise Ok with exactly the record written, or the plugin's own reason at the moment of its call, or a collision exactly when the plugin gets to draw and what it draws is in use, with the instance unchanged; never MalformedDescriptor; the contract does not depend on the node called |
| Agent.Cluster.UndefineFdu | fog05-agent/src/agent.rs:1367-1387 | at the owner: Ok with the removed record and the instance nowhere, or the reason found on the way with the instance unchanged; elsewhere: the contract of clean |
| Agent.Cluster.OnboardFdu | fog05-agent/src/agent.rs:1133-1148 | the descriptor is catalogued under its own UUID, or under the drawn one unless that is in use; nothing else changes |
| Agent.Cluster.OffloadFdu | fog05-agent/src/agent.rs:1389-1403 | succeeds exactly when the descriptor was catalogued at the read and the later listing showed no instance, HasInstances or NotFound otherwise; read, listing and removal are apart |
| Agent.Cluster.OffloadEntity | fog05-agent/src/agent.rs:1405-1419 | the same for entities |
| Agent.Cluster.FillFdus | fog05-agent/src/agent.rs:1153-1165 | every FDU gets a UUID, order and given UUIDs are kept, drawn ones are new and distinct; it fails only if one of its draws, as many as FDUs lack a UUID, is in use |
| Agent.Cluster.OnboardEntity | fog05-agent/src/agent.rs:1150-1180 | stores the filled entity under its own or a new UUID and issues exactly the UUIDs in it; it fails only if one of its draws is in use |
| Agent.Cluster.GetCompatibleNodes | fog05-agent/src/agent.rs:361-415 | the loops compute the candidate list over all advertised nodes, each asked exactly once at a moment of its own: every node that accepted is listed, once, and each entry stands for one node that accepted |
| Agent.Cluster.Choose | fog05-agent/src/agent.rs:1115-1117 | a selection stands for a node that itself answered Ok(true) when it was asked; none only when no node did |
| Agent.Cluster.ScheduleFdu | fog05-agent/src/agent.rs:1109-1131 | NotFound when no node answered Ok(true) when it was asked; otherwise a node that did is selected, and the answer is exactly that of its define: NotFound if it no longer hosted the FDU, a collision if its draw was in use, else the new instance there |
| AgentSteps.NoneAcceptsIff | fog05-agent/src/agent.rs:361-415 | the candidate list is empty exactly when no node accepts |
| AgentSteps.CandidatesStand | fog05-agent/src/agent.rs:385-414 | every candidate stands for exactly one node, which accepted |
| AgentSteps.CandidateHosts | fog05-agent/src/agent.rs:1119-1126 | the node a candidate stands for has accepted and is the only one with that service |
| AgentSteps.AcceptedIsHosted | fog05-agent/src/agent.rs:876-882 | a node that accepts can define the FDU at once |
| AgentSteps.ScheduledAlone | fog05-agent/src/agent.rs:1109-1131 | when nobody else acts and some node accepts, only the draw decides between Ok and a collision |
| AgentSteps.CandidatesComplete | fog05-agent/src/agent.rs:385-414 | every node that accepts is listed, and nothing is listed twice |
| AgentSteps.ReachedIdsApart | fog05-agent/src/agent.rs:1006-1018 | no UUID names both an entity record and an instance |
| Calls.LifecycleAnswer | fog05-sdk/examples/dummy-hypervisor.rs:110-331 | where no descriptor is ill-formed the plugin's answer on an instance at rest is decided by the record's status and, for configure, by the descriptor being catalogued, and the record it writes is the expected one |
| Calls.RefusedUntouched | fog05-sdk/examples/dummy-hypervisor.rs:95-331 | on any node, serialised or not, an instance that is not there, has another status, or is to be configured from a descriptor that is gone is refused in this order, and nothing changes |
| Calls.NeverMalformed | fog05-sdk/examples/dummy-hypervisor.rs:110-279 | no plugin call on any node, catalog and fitting draws is answered with MalformedDescriptor, or as a draw of a UUID in use would be, well-formed descriptors or not |
| Calls.UntouchedHeld | fog05-agent/src/agent.rs:1182-1419 | a step keeps the local records, the call and, at rest, the global record of every instance it does not touch |
| Progress.CallCompletes | fog05-agent/src/agent.rs:1193-1206 | a waiting call can return, on the record its node has |
| Progress.OperationCompletes | fog05-agent/src/agent.rs:1209-1365 | every lifecycle operation that nothing refuses can be carried out with any allowed draws, and ends at rest on the record it must produce |
| Progress.InstanceCanRun | fog05-agent/src/agent.rs:1182-1279 | from any reachable state a hosted descriptor can be brought to a running instance on that node |
| Entities.EntityScheduling | fog05-agent/src/agent.rs:417-469 | every FDU is onboarded, when nobody else acts the last one of each UUID as it is; on success the k-th id is a distinct new RUNNING instance of the k-th FDU and exactly ONBOARDED, STARTING, RUNNING were published; on failure at index k the earlier FDUs run, RUNNING was not published, and where no descriptor is ill-formed the k-th FDU was refused: a draw for it was in use, or NotFound after some node declined it, when nobody else acts with no node accepting it; with every UUID filled in it never fails with MalformedDescriptor |
| Entities.StartAll | fog05-agent/src/agent.rs:442-463 | the starting loop for any number of FDUs, with what is defined on the way; the FDU it fails at was refused in that way |
| Entities.StartOne | fog05-agent/src/agent.rs:443-462 | schedule, configure and start one FDU on whichever node was selected; where no descriptor is ill-formed it fails only with a collision, after a draw for this FDU was in use, or with NotFound, after some node declined it, and when nobody else acts only if no node answers Ok(true) for it |
| Entities.ScheduleEntity | fog05-agent/src/agent.rs:1006-1060 | NotFound exactly for an entity that was not catalogued when it was read, a collision exactly when the UUID drawn for the record is in use then; otherwise the record ends RUNNING with all instances or in ERROR with none listed, never with MalformedDescriptor, and where no descriptor is ill-formed with the refusal of the first FDU that was not started as its cause; exact statuses published; when nobody else acts it ends RUNNING if the FDUs are well formed and distinct, each has a node that accepts it, and the draws are free |
| Entities.ScheduleSucceeds | fog05-agent/src/agent.rs:417-469 | when nobody else acts, well-formed FDUs with UUIDs of their own, each accepted by some node before they are onboarded, all run at the end of scheduling if no draw made meanwhile is in use |
| Entities.NeverRefused | fog05-agent/src/agent.rs:442-463 | none of such FDUs is refused |
| Descheduling.StopOne | fog05-agent/src/agent.rs:486-500 | stop, clean and undefine one instance: afterwards it is nowhere; it succeeds on a running, operable instance; where no descriptor is ill-formed it fails with TransitionNotAllowed only if it was not RUNNING, and with NotFound only after it had no record or its node did not host its FDU |
| Descheduling.StopAll | fog05-agent/src/agent.rs:486-500 | the same for any number of instances |
| Descheduling.OffloadAll | fog05-agent/src/agent.rs:510-514 | each descriptor is offloaded, when nobody else acts exactly these leave the catalog; it succeeds when they are unused and distinct; it fails with NotFound or HasInstances only after one of them was not catalogued or had an instance |
| Descheduling.EntityUnscheduling | fog05-agent/src/agent.rs:471-520 | on success all instances are gone, every descriptor was offloaded and exactly STOPPING, STOPPED, OFFLOADING, OFFLOADED were published, on failure a proper prefix, none exactly when the entity was not catalogued when it was read; where no descriptor is ill-formed the error is why an instance could not be erased or a descriptor not offloaded; it succeeds when the entity can be descheduled and nobody else acts |
| Descheduling.DescheduleEntity | fog05-agent/src/agent.rs:1062-1107 | the record ends OFFLOADED or in ERROR, where no descriptor is ill-formed with the reason found on the way as its cause; NotFound exactly without a record |
| Descheduling.ErasedGone | fog05-agent/src/agent.rs:1367-1381 | in a serialised run an instance without record and call is in no store, cache or FIFO |
| RoundTrip.ScheduleThenDeschedule | fog05-agent/src/agent.rs:417-520 | scheduling an entity of distinct unused FDUs and descheduling it restores every node's stores and the global records, removes exactly its descriptors, and ends OFFLOADED; otherwise either the UUID drawn for the record was in use and nothing was touched, or the record ended in ERROR without a stop announced because an FDU was refused; it succeeds if each FDU has a node that accepts it and the draws are free |
| RoundTrip.StretchRestores | fog05-agent/src/agent.rs:417-520 | any stretch of a run that only calls plugins on new instances and leaves none restores each node |
| RoundTrip.ScheduledIsDescheduable | fog05-agent/src/agent.rs:464-468 | what a successful schedule leaves can be descheduled |
| Plugins.AgentPlugins.RegisterPlugin | fog05-agent/src/agent.rs:598-653 | index, catalog and answer are those of the operation; AlreadyPresent for a taken kind, other kinds refused |
| Plugins.AgentPlugins.UnregisterPlugin | fog05-agent/src/agent.rs:655-671 | index, catalog and answer are those of the operation; NotFound for an uncatalogued UUID |
| Plugins.RegisterAgreesIff | fog05-agent/src/agent.rs:598-653 | registering keeps index and catalog in bijection exactly when the kind is taken, is neither a hypervisor nor networking, or the UUID is not catalogued |
| Plugins.RegisterAnswers | fog05-agent/src/agent.rs:598-653 | Ok with the plugin's UUID exactly for a hypervisor or networking kind that is free; then this plugin and no other is indexed for the kind and catalogued under it, and all else is unchanged; AlreadyPresent exactly for a taken kind; an error changes nothing |
| Plugins.UnregisterAnswers | fog05-agent/src/agent.rs:655-671 | NotFound exactly for an uncatalogued UUID; Ok exactly for a catalogued hypervisor or networking plugin, which leaves the catalog and its kind the index, and all else is unchanged; an error changes nothing |
| Plugins.RegisterThenUnregister | fog05-agent/src/agent.rs:598-671 | registering a new plugin and unregistering it restores the state |
| Plugins.TwoPluginsReady | fog05-agent/src/agent.rs:201-208 | a new agent is READY after one networking and one hypervisor registration, in either order, and not before |
| Plugins.RegisteredTwice | fog05-agent/src/agent.rs:598-671 | a plugin registered as networking and then as a hypervisor: indexed twice, catalogued once, and unregistering it leaves a networking plugin that the catalog does not have |
| Plugins.UnregisterRemovesOne | fog05-agent/src/agent.rs:655-671 | unregistering removes exactly the named plugin from both |
| Plugins.ReadyIff | fog05-agent/src/agent.rs:201-208 | READY means a catalogued networking plugin and at least one catalogued hypervisor |
| Plugins.PluginRunsAgree | fog05-agent/src/agent.rs:598-671 | bijection, one plugin a kind, and READY over any run from empty that registers uncatalogued UUIDs |
| Paths.SplitJoin | fog05-sdk/src/zconnector/mod.rs:94-323 | splitting a path gives back its chunks |
| Paths.JoinSplit | fog05-sdk/src/zconnector/mod.rs:94-323 | joining the chunks of anything that starts with a slash gives it back |
| Paths.SplitRender | fog05-sdk/src/zconnector/mod.rs:94-323 | for every modelled address and selector, global and local, with all families under a node |
| Paths.RenderText | fog05-sdk/src/zconnector/mod.rs:94-323 | the exact text of every modelled path and selector, global and local |
| Paths.RenderInjective | fog05-sdk/src/zconnector/local.rs:41-126 | distinct addresses have distinct paths, across families and stores |
| Paths.SelectorExact | fog05-sdk/src/zconnector/mod.rs:94-323 | a selector matches exactly the paths of its own family and store with the ids it gives, across all families of the global and the local stores |
| Store.KeyValueStore.Get | fog05-sdk/src/zconnector/mod.rs:926-930 | a read gives exactly the stored values that the selector covers, each once |
| Store.KeyValueStore.GetInstance | fog05-sdk/src/zconnector/mod.rs:919-946 | the only record of the instance; NotFound exactly without one; TooMuchError exactly when stored under two FDU UUIDs |
| Store.KeyValueStore.GetAllFduInstances | fog05-sdk/src/zconnector/mod.rs:978-1010 | exactly the stored records of the descriptor, each once |
| Store.KeyValueStore.AddInstance | fog05-sdk/src/zconnector/mod.rs:1012-1023 | the record lies at the path of its own ids |
| Store.KeyValueStore.RemoveInstance | fog05-sdk/src/zconnector/mod.rs:1025-1036 | deletes precisely the key that the read found; afterwards no record of the instance is stored |
| Store.KeyValueStore.GetEntityInstance | fog05-sdk/src/zconnector/mod.rs:1125-1156 | the only record of the entity instance; NotFound exactly without one; TooMuchError exactly when stored under two entities; no other error |
| StoreRuns.PutRefinesIff | fog05-sdk/src/zconnector/mod.rs:1012-1023 | a put refines the typed update exactly when the slot was empty or its value has the same path |
| StoreRuns.DeleteRefines | fog05-sdk/src/zconnector/mod.rs:1025-1036 | a delete removes exactly the slot |
| StoreRuns.LookupRefines | fog05-sdk/src/zconnector/mod.rs:919-946 | under the refinement a selector reads exactly the typed value |
| StoreRuns.StoreRefinesFromStart | fog05-sdk/src/zconnector/mod.rs:895-1251 | after any run, serialised or not, the global string store, and every node's local one, holds exactly the typed maps it stands for, and no instance or entity instance is ever stored under two ids, so TooMuchError cannot arise |

## Left out

- Agent.Cluster.Others: one client's view; what other clients do is any sequence of permitted steps, not their own programs.
- Entities.ScheduleEntity: the spawned job is run to its end inside the call; a second call on the same record meanwhile is outside the serialisation hypothesis.
- RoundTrip.ScheduleThenDeschedule: assumes that nobody else acts, since otherwise other clients change the stores that are compared.
- HypervisorPlugin.DummyHypervisor.CleanFdu: a record without `hypervisor_specific` makes the plugin panic; the model answers with an error instead. It cannot arise in a conserved store.
- AgentSteps.AcceptedIsHosted: a node without a processor or a root disk makes the compatibility check panic; the model answers with an error.
- Plugins.AgentPlugins.RegisterPlugin: the default virtual network that registering a networking plugin spawns is not modelled, nor is the plugin's display name.
- Store.KeyValueStore.GetInstance: values are records rather than serialised bytes, so EncodingError does not arise.
- Location.RequestAnswers: not for configure, whose answer also depends on its draws; `Agent.Cluster.Operate` states it.
- Location.DeleteInstance: its exact outcome is for the case that nobody else acts, since another client may offload the descriptor on the way.
- Plugins and node infos do not change during a run of `Protocol`; registering is modelled apart, in `Plugins`.
- Zenoh sessions, RPC macros, timeouts, server start and stop, logging and serialisation formats.
- The `OS` interface (files, downloads, commands, signals), agent bootstrap and Ctrl-C handling: input and output only.
- Hardware monitoring and advertising: node infos and statuses are inputs, with reals for the floating-point sizes.
- fosctl, REST and `FDUApi`: thin wrappers, apart from their delete of an instance (`Location.DeleteInstance`).
- `FDURecordStream::poll_next`: the agent uses `subscribe_instances` instead.
- VLAN, VXLAN and GRE interfaces in detail (one constructor with a tag), random names, addresses and MAC setting: no property here turns on their behaviour.
- Virtual networks of the network plugin, and the unimplemented operations (`run_fdu`, `log_fdu`, `migrate_fdu`, floating IPs).
- Unlocked interleavings inside one network RPC.
