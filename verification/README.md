# Verified model of the AWS Cloud Map MCS controller

The controller exports Kubernetes services of one cluster to AWS Cloud Map and imports the services other clusters
exported. This project models its five stateful cores in Dafny and proves what they keep, over every input, every map
iteration order, every interleaving and every failure of a call. `dafny verify dfyconfig.toml` checks all of it.

## What is modelled

- **EndpointSlice planner** (`SliceSpec`, `SliceInvariant`, `SliceRounds`, `SliceTheorems`, `SliceContents`, `SlicePacking`,
  `SlicePlanner`, `SliceReplan`, `Ports`). `SlicePlanner` is the planner itself: slice objects updated in place, four lists
  of references, maps ranged over in any order. It is proved to compute a run of the step function of `SliceSpec`; the
  theorems are about every such run. A round of the fill loop is described by the list of IPs it takes from the map (a
  "chunk"), so "for all chunks" is "for every map order".
- **Operation poller** (`Poller`). N calls of `Submit` and one `Await` as a step system of N workers, the submitting
  goroutine, the closer, the WaitGroup counter and an unbuffered channel. A send on a closed channel, a second close and a
  negative counter are steps that panic; they are shown never to happen.
- **Codec** (`Decimal`, `Model`, `Codec`). Printing an endpoint to instance attributes and parsing it back, with decimal
  printing and parsing and their 16-bit and 64-bit bounds. Attribute names are constructors of a datatype, one for each
  reserved name and one for the other strings; `Model.KeysAreNames` proves them to be in bijection with strings.
- **Export** (`Diff`, `Registry`, `Export`, `Extract`, `Desired`, `ExportController`). `Export` lets any number of clusters run
  `handleUpdate` against one shared service, one operation at a time, with every operation free to fail before or after it
  took effect. `ExportController` is one cluster's reconciler as a class over the client and its Kubernetes objects, with
  users changing those objects, and other clusters changing Cloud Map, between its calls.
- **Client and cache** (`Cache`, `CloudMap`, `Client`). The cached views with expiry and arbitrary eviction, over an API
  whose calls take time and may fail while others write.
- **Import** (`Import`). The imports of a namespace and their derived services.

`Common` holds results and the error values of `pkg/common/errors.go`; `Kube` holds what both reconcilers read from
Kubernetes.

Calls that read shared state hand back, as a ghost result, what they saw: the moment of the registry for Cloud Map, a
snapshot of the objects for Kubernetes. So a contract can say of which state an answer was the content, and how long ago,
although others keep writing.

## What the proofs found

- Whatever `Current` lists, Update, Delete and Unmodified together are `Current`, entry by entry. So the plan names each
  object once, in one list, exactly when `Current` lists distinct objects (`CalculateChanges`). The caller takes the address
  of a range variable (`pkg/controllers/multicluster/cloudmap_controller.go:246-248`), and under the Go 1.19 of `go.mod`
  all those pointers are one (`GatherSlices`): for n slices the plan names that one object n times (`PlanRepeated`), and
  if it needed no change it is both kept and deleted as soon as n is two (`PlanSettledRepeated`).
- Planning serves every desired address on every desired port. Those are only the desired pairs when every address
  exposes every port; `ServedPairs` states this as an equivalence.
- A registered endpoint is read back unchanged exactly when it is `Encodable` (`RoundTripExact`): known or empty address
  type, port numbers in 0..65535, no target port on the endpoint port, and no reserved key among its own attributes.
- A finished export is stable under replanning exactly when no desired id repeats (`Export.Stable`).
- Another cluster's registration takes an instance away exactly when it uses an id the cluster has (`TakenOverIff`).
- Endpoint ids agree exactly when port, lower-cased protocol and the address with its dots and colons read as one character
  agree. Within IPv4 or plain IPv6 that is the address itself, but an IPv6 address in mixed notation can share its id with
  another address (`MixedNotationCollides`).
- Derived service names hash the namespace, service and cluster id run together without a separator, so two services
  can share a derived name whatever the hash is (`DerivedNamesCollideIff`, with a pair in `DerivedNamesCanCollide`).

## Model

| member | source | states |
|---|---|---|
| SlicePlanner.EndpointSlicePlan.CalculateChanges | pkg/controllers/multicluster/endpointslice_plan.go:52-85 | always ends with the old entries distributed over Update, Delete and Unmodified, and names each object once iff the old entries are distinct objects; then, or if trimming alone suffices, the four lists and all slice contents are those of a complete run of the specification from the old contents; created slices are new, are selected for the plan's service and for no other, name its import and cluster, and have the address type the desired endpoints share |
| SlicePlanner.EndpointSlicePlan.TrimSlices | pkg/controllers/multicluster/endpointslice_plan.go:87-127 | every old entry is filed once; if the objects are distinct or none is written, in the list its contents call for, with only its unclaimed desired records left, and what remains of the map is the desired IPs no slice has |
| SlicePlanner.EndpointSlicePlan.GetOrCreateUnfilledEndpointSlice | pkg/controllers/multicluster/endpointslice_plan.go:129-162 | hands out a slice with room and keeps every entry listed; for distinct objects it is the slice and port flag the four selection rules give, with one slice moved between lists and no other touched |
| SlicePlanner.EndpointSlicePlan.FillSlice | pkg/controllers/multicluster/endpointslice_plan.go:68-76 | appends the records of as many map entries as fit, each once, in any order, and removes exactly those from the map |
| SliceRounds.RunSound | pkg/controllers/multicluster/endpointslice_plan.go:65-82 | the planner's invariant holds after trimming and after every round: counts per IP, partition of the old slices, sizes, ports, order of creation |
| SliceRounds.ChunkCounts | pkg/controllers/multicluster/endpointslice_plan.go:65-82 | every round places at least one IP, so the number of unplaced IPs strictly falls |
| SliceTheorems.PlanIsExact | pkg/controllers/multicluster/endpointslice_plan.go:52-127 | the surviving slices hold each desired IP exactly once and no other, none is empty and all have the desired port ids, even when old slices repeat addresses |
| SliceTheorems.NoChangeIffSettled | pkg/controllers/multicluster/endpointslice_plan.go:52-162 | a plan changes nothing exactly when the slices are already settled, and then keeps them all in order |
| SliceTheorems.ReplanningIsIdle | pkg/controllers/multicluster/endpointslice_plan.go:52-162 | planning again over the applied slices, in any order and with any port order, changes nothing |
| SliceTheorems.PlanServesProduct | pkg/controllers/multicluster/endpointslice_plan.go:107-111 | a pair of address and port id is served iff the address is desired and the port id is |
| SliceTheorems.ServedPairs | pkg/controllers/multicluster/endpointslice_plan.go:59-82 | every desired pair is served, and nothing more iff every desired address exposes every desired port |
| SlicePlanner.NewSliceMadeFor | pkg/controllers/multicluster/utils.go:254-277 | a new slice is selected by the importer's listing for its service and no other, and is labelled with its import, cluster and manager |
| SliceContents.WrittenAsDesired | pkg/controllers/multicluster/utils.go:230-251 | every record a plan adds presents the desired endpoint of its address, with its readiness, names and service; ports are kept or written whole, names included |
| SlicePacking.PlanConserves | pkg/controllers/multicluster/endpointslice_plan.go:87-161 | each old slice is in exactly one of Update, Delete and Unmodified; deleted and unmodified contents are untouched, updated ones differ; nothing is created while a slice is deleted |
| SlicePacking.AddressStaysPut | pkg/controllers/multicluster/endpointslice_plan.go:91-97 | a desired IP stays in the first old slice that has it |
| SlicePacking.SizesBounded | pkg/controllers/multicluster/endpointslice_plan.go:65-82 | no surviving slice exceeds the maximum unless it only kept old records; all created slices but the last are full |
| SlicePacking.CreatedExactly | pkg/controllers/multicluster/endpointslice_plan.go:129-162 | the exact number of created slices, from the unplaced IPs and the room left after trimming |
| SlicePacking.CreatedAtMostCeil | pkg/controllers/multicluster/endpointslice_plan.go:65-82 | at most ceil(unplaced / maximum) slices are created, and exactly that many when there was no old slice |
| SlicePacking.OrderIndependent | pkg/controllers/multicluster/endpointslice_plan.go:68-76 | two map orders give the same slices in the same lists with the same lengths |
| SliceReplan.PlanTwice | pkg/controllers/multicluster/cloudmap_controller.go:238-281 | on the heap, over distinct objects: list the service's slices by the importer's selector, plan, apply, list again: what is found is what the plan left, a second plan has empty Create, Update and Delete, and other services' listings are as before |
| SliceReplan.PlanSettled | pkg/controllers/multicluster/endpointslice_plan.go:52-85 | on the heap: planning over settled slices leaves all of them unmodified |
| SliceReplan.GatherSlices | pkg/controllers/multicluster/cloudmap_controller.go:245-248 | the list of n addresses of the range variable is n references to one slice, whose contents are the last item's |
| SliceReplan.PlanRepeated | pkg/controllers/multicluster/cloudmap_controller.go:245-258 | planning over n references to one slice names it n times in all, so each object once iff n is at most one |
| SliceReplan.PlanSettledRepeated | pkg/controllers/multicluster/cloudmap_controller.go:245-258 | a slice that needs no change, listed n times, is unmodified once and deleted n - 1 times |
| Ports.ExtractEndpointPorts | pkg/controllers/multicluster/utils.go:114-124 | one port per protocol and number, the last one given, each once in any order |
| Ports.ExtractServicePorts | pkg/controllers/multicluster/utils.go:101-111 | the same for service ports |
| Ports.WrittenPortsMatch | pkg/controllers/multicluster/utils.go:62-98 | ports written to a slice compare equal to the ports they came from |
| Model.KeysAreNames | pkg/model/types.go:72-88 | a key has the name s iff it is the key of s, so keys and strings are in bijection and no custom key has a reserved name |
| Model.PortIdInjective | pkg/model/types.go:330-332 | ports with the same id have the same protocol and number, whatever the protocol contains |
| Decimal.ParseUintOfFormat | pkg/model/types.go:210-220 | a printed integer is read back by the unsigned parser iff it is in range |
| Decimal.ParseIntOfFormat | pkg/model/types.go:234-245 | a printed integer is read back by the signed parser iff it fits |
| Codec.WriteAttributes | pkg/model/types.go:248-277 | filling the attribute map key by key gives the printed attributes, the endpoint's own ones overriding |
| Model.WireNames | pkg/model/types.go:72-88 | the names of the sixteen attributes clusters exchange |
| Codec.ParsesIff | pkg/model/types.go:92-246 | an instance parses iff its twelve required attributes are there and ports, timestamp and readiness are well formed and in range; each field then is its attribute's value, hostname and node name empty if absent, IPv4 winning, and all other attributes are left over |
| Codec.ParsedIsEncodable | pkg/model/types.go:92-169 | whatever parses has in-range ports, a known address type and only foreign keys left |
| Codec.RoundTripExact | pkg/model/types.go:92-277 | parsing the printed attributes gives the endpoint back iff the endpoint is encodable |
| Common.WrapKeepsBoth | pkg/common/errors.go:21-32 | wrapping fails iff one side does, and keeps both texts and the first error's cause |
| Poller.StepSafe | pkg/cloudmap/operation_poller.go:67-129 | no step from a reachable state sends on or closes a closed channel or takes the counter below zero |
| Poller.RunInv | pkg/cloudmap/operation_poller.go:67-129 | in every interleaving: no panic, the counter counts the running workers, each delivered result was heard once, the error is the fold of what was heard |
| Poller.ClosedOnce | pkg/cloudmap/operation_poller.go:111-117 | the channel is closed at most once, and once when it is closed |
| Poller.AllHeard | pkg/cloudmap/operation_poller.go:111-129 | when Await returns, every submitted operation was heard exactly once with its own result |
| Poller.AwaitFailsIff | pkg/cloudmap/operation_poller.go:85-129 | Await returns an error iff some provider or poll failed, and nil iff every operation was seen to succeed |
| Poller.AwaitNamesEveryFailure | pkg/cloudmap/operation_poller.go:85-129 | for any arrival order the returned text contains, for every failure, the operation's id and the reason Cloud Map gave, or the text of the error that ended it |
| Poller.StepProgress | pkg/cloudmap/operation_poller.go:67-129 | every step lowers the measure |
| Poller.NeverStuck | pkg/cloudmap/operation_poller.go:111-129 | some step is possible until Await has returned |
| Poller.EveryRunEndsReturned | pkg/cloudmap/operation_poller.go:111-129 | runs are bounded, and one that cannot go on has Await returned |
| Poller.NilIffAllSucceeded | pkg/cloudmap/client.go:140-203 | registering or deleting endpoints returns nil iff there was none, or the service was found and every operation succeeded |
| Poller.ReportSaysAll | pkg/cloudmap/client.go:140-203 | after a failure the error names the call, contains everything Await said, and has its cause |
| Diff.CalculateChanges | pkg/model/plan.go:21-47 | Create, Update and Delete are the three parts of the difference, Delete in any order |
| Diff.DiffReaches | pkg/model/plan.go:21-47 | upserts in any order and then deletes leave exactly the desired ids with desired endpoints, and exactly the desired map when ids are distinct |
| Diff.DeletesAreUndesired | pkg/model/plan.go:29-44 | exactly the current ids that are not desired are deleted, and only desired endpoints are written |
| Diff.IsNoneIffUpToDate | pkg/model/plan.go:57-59 | nothing is to do iff no desired id repeats and the current map is the desired one |
| Registry.ReadAfter | pkg/cloudmap/client.go:217-231 | reading after a registration or deregistration gives the old reading with the operation applied |
| Registry.OwnAfter | pkg/model/types.go:317-324 | an operation changes only the part of the cluster it belongs to |
| Registry.TakenOverIff | pkg/model/types.go:317-324 | a foreign registration leaves a cluster's part alone iff its id is not in it |
| Export.RunInv | pkg/controllers/multicluster/serviceexport_controller.go:101-150 | in every interleaving each cluster's part of the registry is what it read with its own logged operations applied |
| Export.MakeBeforeBreak | pkg/controllers/multicluster/serviceexport_controller.go:120-143 | at every step of every run, failed ones included, the registry holds all ids the cluster had or all it wants, and always every id it both had and wants |
| Export.Converges | pkg/controllers/multicluster/serviceexport_controller.go:114-143 | after a successful export the cluster's part has exactly the desired ids, and is exactly the desired endpoints when ids are distinct, whatever others do |
| Export.Stable | pkg/controllers/multicluster/serviceexport_controller.go:120-147 | reading back through the parser and planning again finds nothing to do iff no desired id repeats |
| Export.OnlyHomeChanges | pkg/controllers/multicluster/serviceexport_controller.go:127-143 | over a whole run an instance changes only if the cluster its id belongs to took a step |
| Extract.ExtractEndpoints | pkg/controllers/multicluster/serviceexport_controller.go:251-279 | the nested loops give the endpoints of slices, ports, endpoints and addresses in that order |
| Extract.ExtractedIff | pkg/controllers/multicluster/serviceexport_controller.go:251-279 | exactly the combinations of a slice's ports with its addresses are extracted |
| Extract.ExtractedExportable | pkg/controllers/multicluster/serviceexport_controller.go:259-273 | everything extracted from valid slices survives being registered and read back |
| Extract.ExtractedOnEveryPort | pkg/controllers/multicluster/serviceexport_controller.go:251-279 | slices with equal port ids give every address every port, the condition of ServedPairs |
| Desired.ReachedPresents | pkg/controllers/multicluster/serviceexport_controller.go:236-279 | a cluster's part that has reached the desired endpoints presents, field by field, exactly the port and address combinations of the slices: service port the last one named like the slice's port or empty, readiness, names, type, creation time, cluster and version |
| Desired.ExportedServicePorts | pkg/controllers/multicluster/serviceexport_controller.go:238-264 | the service port ids of what is exported are exactly those of the service ports the slices' ports are named after |
| Extract.LowerCase | pkg/model/types.go:295-299 | the protocol of an id has no upper-case letter and is otherwise unchanged |
| Extract.EndpointIdExample | pkg/model/types_test.go:394-410 | the id of an IPv4 address as the repository expects it |
| Extract.EndpointIdsAgreeIff | pkg/model/types.go:295-299 | two ids agree iff port number, lower-cased protocol and the addresses with separators replaced do |
| Extract.UnderscoredAlikeIff | pkg/model/types.go:295-299 | two addresses agree with separators replaced iff at every place they have the same character or two separators, so addresses that use one kind of separator are told apart |
| Extract.MixedNotationCollides | pkg/model/types.go:295-299 | two different IPv6 addresses, one in mixed notation, have the same id for every port |
| Cache.EndptsKeysDistinct | pkg/cloudmap/cache.go:150-152 | two services share a cache key iff they are the same service |
| Cache.SvcKeysDistinct | pkg/cloudmap/cache.go:146-148 | service-list keys differ per namespace and from the namespace key |
| Cache.SdCache.GetEndpoints | pkg/cloudmap/cache.go:118-134 | hits iff an unexpired entry is there, and returns it |
| Client.ConvertedLists | pkg/cloudmap/client.go:225-232 | converting the listed instances lists every parseable endpoint of the cluster set once |
| Client.ServiceDiscoveryClient.GetEndpoints | pkg/cloudmap/client.go:205-236 | a list the cache holds is the answer without a call, and any other answer is held afterwards; this cluster's part is what is registered now; the whole list was registered no longer ago than its time to live plus the read's latency |
| Client.ServiceDiscoveryClient.GetService | pkg/cloudmap/client.go:113-138 | the same; not found means that the service, or its namespace, was not there no longer ago than that list's time to live plus the latency, and is never answered for a service this client created, saw listed or has instances in; any other error means a call failed |
| Client.ServiceDiscoveryClient.CreateService | pkg/cloudmap/client.go:86-111 | after success no cached list hides the service from the next GetService; an error means a call failed |
| Client.ServiceDiscoveryClient.ListServices | pkg/cloudmap/client.go:60-84 | distinct existing services, each with all the endpoints of all clusters it had no earlier than endpoint lifetime plus latency before the call, this cluster's part as registered; unless a call failed they are all the services the namespace had no earlier than the lists' lifetime plus latency before, every known one among them |
| Client.ServiceDiscoveryClient.RegisterEndpoints | pkg/cloudmap/client.go:140-171 | only given endpoints are written, all of them unless a call failed or the service is unknown, no other service is touched, the cache stays coherent, and the error contains the text of every operation that failed |
| Client.ServiceDiscoveryClient.DeleteEndpoints | pkg/cloudmap/client.go:173-203 | only given ids are removed, all of them unless a call failed or the service is unknown, no other service is touched, the cache stays coherent, and the error contains the text of every operation that failed |
| ExportController.ServiceExportReconciler.AddFinalizerAndOwnerRef | pkg/controllers/multicluster/serviceexport_controller.go:152-172 | unless a call failed the export exists and carries the finalizer, and one without an owner was given one |
| ExportController.ServiceExportReconciler.CreateOrGetCloudMapService | pkg/controllers/multicluster/serviceexport_controller.go:174-192 | never not found; unless a call failed, this cluster's part of the answer is what is registered |
| ExportController.ServiceExportReconciler.ApplyChanges | pkg/controllers/multicluster/serviceexport_controller.go:120-149 | unless a call failed the cluster's part is what is desired; after each single operation applied, failed runs included, all old or all desired ids are there |
| ExportController.ServiceExportReconciler.HandleUpdate | pkg/controllers/multicluster/serviceexport_controller.go:101-150 | the same for a whole update, desired being what the slices seen by one read of this call give for this export and service, with the finalizer in place before anything is registered; every instance then presents its slice, port and address (ReachedPresents) |
| ExportController.ServiceExportReconciler.HandleDelete | pkg/controllers/multicluster/serviceexport_controller.go:194-219 | the finalizer comes off only when no instance of this cluster is left; without an error none is, and at a moment of the call the finalizer was off, an export being deleted gone |
| ExportController.ServiceExportReconciler.Reconcile | pkg/controllers/multicluster/serviceexport_controller.go:51-99 | keeps the finalizer invariant: an export with instances of this cluster exists and carries the finalizer; touches no other service's instances; exports, withdraws or skips as the export and service read by this call say; unless a call failed an export ends with exactly the instances the slices it read ask for and a withdrawal with none and the finalizer off, and no service with instances is skipped |
| ExportController.ServiceExportReconciler.Meanwhile | pkg/controllers/multicluster/serviceexport_controller.go:51-99 | users, other clusters and time keep the same invariant between reconciliations |
| Import.CloudMapReconciler.ReconcileNamespace | pkg/controllers/multicluster/cloudmap_controller.go:81-125 | lists the services through the client; unless a call failed the imports are exactly the listed services with endpoints and each has their ports, with derived services one to one to its clusters and their IPs if the derived names in use are apart, and every cluster's endpoints handed to the slice planner; every failed call leaves at most one service or unmatched import undone; a failed listing changes nothing; an import of a listed service is never deleted |
| Import.CloudMapReconciler.ReconcileService | pkg/controllers/multicluster/cloudmap_controller.go:127-203 | unless a call failed the import has the service's ports and, if the derived names in use are apart, one derived service per cluster with that cluster's ports and exactly their IPs; new imports have the service's type and clusters, derived services made for a headless import have no IP, and those removed had their slices deleted first; other imports and their derived services are untouched |
| Import.CloudMapReconciler.UpdateServiceImport | pkg/controllers/multicluster/cloudmap_controller.go:284-330 | without an error the import's IPs and port ids are the given ones in any order; ports are kept or written whole; its type and all other imports stay |
| Import.CloudMapReconciler.UpdateDerivedService | pkg/controllers/multicluster/cloudmap_controller.go:332-355 | without an error the derived service has the given port ids, and nothing but its ports changes |
| Import.CloudMapReconciler.GroupByCluster | pkg/controllers/multicluster/cloudmap_controller.go:132-135 | groups the endpoints by their cluster, keeping their order |
| Import.DerivedNamesCollideIff | pkg/controllers/multicluster/utils.go:156-160 | two derived names agree for every hash iff namespace, service name and cluster id run together alike |

## Left out

- Kept slice records: readiness, host name and node name of a record that stays are not refreshed by the planner, so planner claims are about addresses and port ids.
- Slice endpoints have at least one address, and the three pointers of a slice port are values, as the code dereferences them unchecked.
- A negative maximum makes the fill loop diverge; the maximum is a natural number with 0 standing for 100.
- updateEndpointSlices: the importer's side records which endpoints are handed to the planner for which derived service; PlanTwice is about what the planner makes of them over distinct slice objects, and PlanRepeated about the list the source gathers when there are several.
- NewEndpointFromInstance: the local attribute map the source deletes from is a value handed from one reader to the next; the text of a parse error leaves out the library's own message. A nil and an empty attribute map are one value.
- wait.Poll: a condition called until it is done, fails, or a bounded number of attempts is used up. Clock ticks inside it are not modelled.
- Submit after Await, or several Awaits, are not modelled: the callers submit everything first and await once.
- Operations that finish after a timeout: every operation is settled when Await returns.
- Endpoint reads between the eviction and the end of Await: the client is called by one goroutine at a time, and a concurrent read could cache a list that is about to change.
- Export ids: each id belongs to one cluster, which is what address-based ids give when clusters' address ranges are apart. TakenOverIff says what happens otherwise.
- Namespaces and services of Cloud Map are not deleted and made again under the same name, so a name stands for an id; unsupported namespace types are not listed.
- Kubernetes reads see the current objects, not an informer cache that lags behind.
- Owner references, garbage collection of derived services of a deleted import, annotations, import status after creation, and resource versions other than as the guard of an update.
- The rate limiter, paging, the result limit of a discovery call, logging and metrics.
- DerivedName: the hash is a parameter. What is promised about derived services holds when the names in use are apart and existing derived services are labelled as the controller labels them; DerivedNamesCollideIff says when names are not apart whatever the hash is.
- The import reconciler's Kubernetes objects have no other writers during a reconciliation; the export reconciler's have.
- The cluster's ids and set id are read once; a change of the cluster properties under a running controller is not modelled.
- Some source functions are split into several methods, one per loop or branch; each part names the function it belongs to.
