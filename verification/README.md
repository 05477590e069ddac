# Cloud runtime, listener mux and stream pairing: a model and its proofs

This project models the parts of cluster-api-provider-goofy that hold its state together, and proves what they
keep over whole runs:

- the in-memory cloud API server: resource groups of objects with optimistic concurrency, owner references with a
  hand-maintained reverse index, cascading deletion with finalizers, a garbage collector, a syncer and
  notifications (`Text`, `Objects`, `Tracker`, `Ownership`, `Cascade`, `Settled`, `Closure`, `Deletion`, `Forest`,
  `Machine`, `Integrity`, `References`, `History`, `Notifications`, `SyncBounds`, `Limits`, `Cache`);
- the path from a notification to a reconcile (`Controller`);
- the workload-clusters mux and the protocol that keeps control plane endpoints stable across crashes (`Mux`,
  `Endpoints`);
- port-forward stream pairing (`Streams`) and the choice of an etcd leader (`Etcd`).

`dafny verify dfyconfig.toml` checks all of it.

## How the model is built

A resource group is a value, `Tracker.State`: a flat map of objects, the ownership index, the queued collection
requests and the log of notifications. `Tracker.Store`, `Cascade.Try` and `Tracker.Sync` are the lock-held sections
on that value. `Cache` has the program itself, classes with the two-level maps updated in place, and proves each
method equal to those functions; the theorems are then about the functions and about `Machine`, which interleaves
clients, the collector and the syncer in any order.

The cascade is the centre. `Cascade.Try` recurses over an index that it changes while it goes, and may stop half
way with an error. `Settled.TryIsWalk` shows that each of its outcomes, failures included, is the starting state
with a list of settled objects applied to it, the list being a walk over the graph that does not change.
`Closure` reads the walk as graph reachability, and `Deletion` draws the conclusions: a call comes back in every
order if and only if no ownership cycle lies below its target; it then succeeds if and only if everything below is
tracked and every object without finalizers is recorded under one owner; a successful call has an exact
description; and any call keeps referential integrity. `Integrity` shows which states keep it for good, and
`References` when the index edges that a cascade follows are owner references.

`Machine`, `Controller`, `Endpoints` and `Streams` each have a state, actions with guards, and histories
(`IsHistory`). Their theorems are about any state of any history.

Owner references carry pointers to booleans. The change test follows them and the maintenance of the index compares
them, so the model has both equalities: `==` on `OwnerRef` and `DeepEqual` on objects.

## Assumptions

- Each lock-held section is one step, and reads the clock once. Clock values are inputs; only `SyncBounds` asks that
  they do not fall, and the theorems on lost updates that one object is not created twice at one clock value. The order in which a Go map is ranged over is an input too (`ord`, any enumeration).
- Termination of a cascade needs a graph without ownership cycles; the methods ask for it (`Returns`), and
  `Machine.HistoryTerminates` gives a discipline for clients under which it always holds.
- Endpoints: a fixed, non-empty host, one GoofyCluster per Cluster, names without slashes as Kubernetes requires,
  endpoints written by the reconciler alone, a complete listing at hot restart, and one reconcile per object at a
  time. Reads may be of any age, and objects may be deleted and created again at any moment. The theorems over
  histories ask one thing of each patch (`Endpoints.Annotated`): it writes no endpoint, or the annotation is there,
  or it writes that too. `Endpoints.StepKeeps` shows that this is exact.
- The notification theorems concern handlers registered before the objects they speak of are created.

## What the code does not do

Some plausible claims are false of the code. Each comes with an input or a history that shows it, or with a
condition proved to be necessary, and with the condition under which it holds.

- The package comment of `internal/cloud/runtime/cache/doc.go` says that there is no concept of owner references.
  The code has one, and the model follows the code.
- An Update may make an object its own owner; deleting it then recurses forever (`Limits.CycleIsReachable`). Deletion
  comes back in every order if and only if no cycle lies below its target (`Deletion.FinishesIffBounded`).
- Dropping one of two references to the same owner drops the only index edge, after which deleting the owner leaves
  a dangling reference (`Limits.DoubleReferenceBreaksIntegrity`). The guard on updates is exact: integrity is certain
  whatever safe steps come if and only if every unmarked object is recorded under each other object that it names
  (`Integrity.IntegrityIff`), and a step leaves it certain if and only if it is safe (`Integrity.GuardIsExact`).
- An owned object deleted directly stays in its owner's index entry, and every deletion of the owner fails until an
  object of that name is created again, unless the owner was itself below the deleted object (`Machine.DirectDeleteBreaksOwner`; exact by `Machine.StepStranded`). The
  owner's deletion may then take the new object along, which never named it (`Limits.RecreationIsCaught`). The index
  holds real references alone if and only if each Create names the owners that its name is still recorded under
  (`References.StepNamed`); then a deletion touches only descendants of its target (`References.OnlyDescendantsChange`).
- An Update that changes nothing may change the index: an equal reference behind another pointer is added again, after
  a cascade has cleared the entry it had, and that can close a cycle (`Limits.ReaddedReferenceCloses`). The discipline
  of `Machine.HistoryTerminates` counts such a reference as added.
- Handling sync requests before the next scan does not bound staleness by 1.25 periods and a second
  (`SyncBounds.BeforeNextScanIsNotASecond`): the exact bound is the period and two gaps, less a nanosecond
  (`SyncBounds.HandledStalenessIff`). With scans every quarter period, "1.25 periods and a second" holds if and only if
  requests are handled within a second and a nanosecond (`SyncBounds.QuarterBoundIff`).
- A version number starts again at 1 when an object is recreated, and an Update based on the old object may overwrite
  the new one (`Limits.RecreationLosesUpdate`). An accepted Update replaces what its client read if the creation time
  is the one that the client read (`History.NoLostUpdate`), and the creation time is that one if and only if the object
  is of the same incarnation (`History.SameLifeIffCreation`).
- The set of ports in `HotRestart` is never filled, so the check for duplicates never fires
  (`Mux.RestartSucceedsWhen`), and the maps are inverse after a restart if and only if the ports are distinct
  (`Mux.RestartInverse`); that comes from the protocol's invariant.
- A reconcile that has read an annotation without an endpoint, and patches an object created anew under it, stores an
  endpoint without annotation; after a crash no hot restart succeeds until that object is deleted
  (`Endpoints.RecreationCanStick`, exact by `Endpoints.RecreatedMidFlight` and `Endpoints.StepKeeps`).
- Equal leader-from times make the reported etcd leader depend on the order of the listing; the exact condition is
  `Etcd.LeaderIndependentIff`.

## Model

| member | source | states |
|---|---|---|
| Text.AtoiOfItoa | internal/cloud/runtime/cache/hooks.go:55-56 | parsing a printed number gives it back, so printing is injective |
| Objects.BumpRaises | internal/cloud/runtime/cache/hooks.go:55-56 | bumping any parsed version gives "v" and the next number, in a form that parses back |
| Objects.DeepEqualIff | internal/cloud/runtime/cache/hooks.go:51 | two objects count as equal if and only if all fields agree, owner references field by field, pointers in nil-ness and in what they point to |
| Objects.GroupVersionIs | internal/cloud/runtime/cache/cache.go:101 | an apiVersion parses to a group and a version if and only if it is the two with one slash between, or the version alone for the empty group |
| Objects.OwnerOfIs | internal/cloud/runtime/cache/cache.go:100-112 | an owner reference names an object if and only if name and kind are its own, the apiVersion is its group and version, and the namespace is the referring object's |
| Objects.StampCutsOff | internal/cloud/runtime/cache/hooks.go:34 | the last-sync annotation is the time cut off to whole seconds |
| Tracker.ReindexOwned | internal/cloud/runtime/cache/client.go:228-272 | the two loops over references together: an owner loses the child for a dropped reference and gains it for a new one, no other entry moves, no entry is left empty |
| Tracker.SingleRefsKeepEdges | internal/cloud/runtime/cache/client.go:230-250 | an object that listed no owner twice meets the guard of the index theorems |
| Tracker.ReindexExact | internal/cloud/runtime/cache/client.go:228-272 | difference-based maintenance equals a rebuild for the stored object if and only if no owner loses one of several references |
| Ownership.StoreSucceedsWhen | internal/cloud/runtime/cache/client.go:174-217 | Create and Update succeed if and only if the owners exist, the object is absent or present as asked, and the version matches; otherwise nothing changes |
| Ownership.StoreRefuses | internal/cloud/runtime/cache/client.go:174-217 | which error a Create or Update gives, in the order of the checks: an owner that does not parse or exist, an object that exists, another version, an object that does not exist |
| Ownership.StoreWellKept | internal/cloud/runtime/cache/client.go:148-226 | objects sit under their own names, stored references parse, owner keys are tracked, no entry is empty, edges stay in one namespace |
| Ownership.StoreComplete | internal/cloud/runtime/cache/client.go:174-226 | referential integrity survives every Create and Update; index completeness does if and only if edges are kept or the object is marked |
| Ownership.StoreExact | internal/cloud/runtime/cache/client.go:228-272 | an exact inverse index stays exact if and only if the edges were kept |
| Cascade.VisitExtends | internal/cloud/runtime/cache/client.go:382-411 | the recursion settles every object after all it owns, and its target last |
| Settled.SettleOne | internal/cloud/runtime/cache/client.go:409-442 | the last part of the recursion, marking or removing, applied to a state in which some objects are settled, settles one more |
| Settled.TryIsWalk | internal/cloud/runtime/cache/client.go:382-443 | the recursion over the changing index, with its side effects and error exits, equals a walk over the unchanging graph followed by one application of its list |
| Closure.SuccessIsClean | internal/cloud/runtime/cache/client.go:395-410 | an error-free walk settles exactly what is reachable, and that part of the graph is acyclic, tracked and singly owned where it has no finalizers |
| Closure.CleanSucceeds | internal/cloud/runtime/cache/client.go:395-410 | over such a graph the walk never fails, in any order |
| Closure.UnboundedSticks | internal/cloud/runtime/cache/client.go:395-400 | below a cycle there is an order in which no recursion depth suffices |
| Deletion.SucceedsIffClean | internal/cloud/runtime/cache/client.go:382-443 | a deletion that comes back succeeds if and only if the closure of its target is clean, and otherwise fails with NotFound |
| Deletion.FinishesIffBounded | internal/cloud/runtime/cache/client.go:395-409 | deletion comes back in every order if and only if no cycle lies below its target |
| Deletion.SuccessIsExact | internal/cloud/runtime/cache/client.go:382-443 | after success exactly the closure's finalizer-free objects are gone, the others marked, its index entries gone, and every survivor but the target requested; in plain fields by the next four rows |
| Deletion.FinalizersProtect | internal/cloud/runtime/cache/client.go:412-442 | on any outcome an object with finalizers stays, with its finalizers |
| Deletion.SuccessInPlainFields | internal/cloud/runtime/cache/client.go:382-443 | a successful call reports its target deleted if and only if that has no finalizers; of the tracked objects exactly those below the target without finalizers are gone; those with finalizers get the present as deletion time, a new stamp and the next version, or keep the deletion time they had; all others are as before |
| Deletion.SuccessRequestsInPlainFields | internal/cloud/runtime/cache/client.go:395-410 | the requests added by a successful call are for the objects below the target with finalizers, the target aside, and the index entries of everything below are gone |
| Deletion.FailureIsNotUndone | internal/cloud/runtime/cache/client.go:395-407 | when the second of two owned objects is missing, the call fails with NotFound, and the first, without finalizers, is gone all the same |
| Closure.ReachesStaysInNamespace | internal/cloud/runtime/cache/cache.go:106-110 | nothing outside the target's namespace is below it in the index |
| Deletion.CallTouchesOnlyClosure | internal/cloud/runtime/cache/client.go:382-443 | on any outcome only closure members change, survivors in their mark alone, only survivors get requests, and other namespaces keep objects, index and requests |
| Deletion.MarkedAreRequested | internal/cloud/runtime/cache/client.go:353-364 | every object a call marks has a request, also when a sibling failed; the target of a successful call has its from the caller |
| Deletion.CallKeeps | internal/cloud/runtime/cache/client.go:393-442 | structure, index completeness and referential integrity survive every outcome of a cascade |
| Deletion.CallNotices | internal/cloud/runtime/cache/client.go:421-432 | a call notifies one Delete for each object it newly marks, carrying the object as tracked, and nothing else |
| Deletion.OrderDoesNotMatter | internal/cloud/runtime/cache/client.go:395-410 | two map orders agree on success, and on success on objects, index, requests and the notifications up to order |
| Deletion.CallLeavesStranded | internal/cloud/runtime/cache/client.go:395-410 | no cascade, whatever its target and outcome, clears an index entry with an untracked object in it |
| Forest.OlderOwnersBounded | internal/cloud/runtime/cache/client.go:395-409 | when index edges go from older to newer incarnations, creation rank bounds the recursion |
| Forest.OwnerlessIsClean | internal/cloud/runtime/cache/client.go:395-410 | with an exact index and at most one owner each, an object without owners has a clean closure: deleting it never errs |
| Machine.StepIntegrity | internal/cloud/runtime/cache/client.go:174-187 | every step of clients, collector and syncer keeps owners tracked, and the index complete if and only if the step keeps edges |
| Machine.HistoryWellKept | internal/cloud/runtime/cache/client.go:148-272 | the unconditional structure holds in every reachable state |
| Machine.HistoryIntegrity | internal/cloud/runtime/cache/client.go:393-442 | referential integrity and index completeness in every state of every history whose updates keep edges, after cascades that stopped with an error too |
| Integrity.StepRecords | internal/cloud/runtime/cache/client.go:174-272 | every step keeps owners tracked, and keeps every unmarked object recorded under each other object it names if and only if the step is safe for those |
| Integrity.HistoryRecords | internal/cloud/runtime/cache/client.go:393-442 | both, in every state of every history of safe steps |
| Integrity.UnrecordedDangles | internal/cloud/runtime/cache/client.go:239-249 | from any state with an unmarked object that an owner does not know, safe steps lead to an owner that does not exist |
| Integrity.IntegrityIff | internal/cloud/runtime/cache/client.go:174-187 | owners stay tracked whatever safe steps come if and only if every unmarked object is recorded under each other object that it names |
| Integrity.GuardIsExact | internal/cloud/runtime/cache/client.go:228-272 | after any safe history, a step leaves integrity certain if and only if it is safe |
| References.StepNamed | internal/cloud/runtime/cache/client.go:219-223 | every step keeps the index to real owner references, a Create if and only if it names the owners its name is still recorded under |
| References.HistoryNamed | internal/cloud/runtime/cache/client.go:228-272 | that holds in every state of every history with such Creates |
| References.OnlyDescendantsChange | internal/cloud/runtime/cache/client.go:382-443 | then whatever a deletion removes or changes, its target aside, is below the target by owner references, on every outcome |
| References.LiveDescendantsGo | internal/cloud/runtime/cache/client.go:395-442 | with a complete index, a successful deletion leaves no descendant by a chain of unmarked objects without a mark |
| References.ReachesIffDescendant | internal/cloud/runtime/cache/client.go:395-410 | with nothing marked, what lies under an object in the index are exactly its descendants by owner references |
| References.SuccessByReferences | internal/cloud/runtime/cache/client.go:382-443 | then a successful deletion removes exactly the descendants without finalizers and marks exactly the others |
| Machine.HistoryExact | internal/cloud/runtime/cache/client.go:228-272 | over any run of Creates and Updates the index is the exact inverse of the owner references, if the accepted Updates keep edges |
| Machine.HistoryTerminates | internal/cloud/runtime/cache/client.go:219-261 | if updates add only owners created earlier, counting a reference whose pointers differ as added, no reachable state has a deletion that may not come back |
| Machine.StepStranded | internal/cloud/runtime/cache/client.go:437-442 | an entry with an untracked object stays, through every step, and stops being stranded exactly when the object is created again |
| Machine.DirectDeleteBreaksOwner | internal/cloud/runtime/cache/client.go:437-442 | after a client or the collector deleted an object on its own that an owner not below it records, every deletion of the owner, by either, fails for as long as the object stays away |
| History.UpdateEvolves | internal/cloud/runtime/cache/hooks.go:43-59 | an Update keeps creation and a set deletion time, and either changes nothing or raises the version by one |
| History.UpdateManages | internal/cloud/runtime/cache/hooks.go:43-59 | an Update stores the caller's owners, finalizers and payload, keeps creation and a set deletion time, and has a new version and stamp exactly when it changes something |
| History.UpdateNoticesChange | internal/cloud/runtime/cache/hooks.go:43-69 | an accepted Update raises the version by one, renews the stamp and sends one notification if and only if it changes the payload, the finalizers, a deletion time not yet set, or what an owner reference says, pointers followed; otherwise version, stamp and log stay |
| History.CreateManages | internal/cloud/runtime/cache/hooks.go:30-37 | a Create stores the caller's content with version 1, the present as creation time, and its stamp |
| History.ContentIsCallers | internal/cloud/runtime/cache/client.go:198-226 | an accepted Create or Update stores exactly that object under its name and leaves every other as it was |
| History.StepEvolves | internal/cloud/runtime/cache/hooks.go:43-59 | no step removes an object with finalizers, clears or changes a deletion time, lowers a version, or changes content under the same version |
| History.FinalizedStays | internal/cloud/runtime/cache/client.go:412-442 | no step of clients, collector or syncer removes an object with finalizers, and only an Update of that object changes them |
| History.HistoryVersioned | internal/cloud/runtime/cache/hooks.go:35-56 | every version in every reachable state is "v" and a decimal of at least 1 that parses back |
| History.LifeEvolves | internal/cloud/runtime/cache/hooks.go:43-59 | the same across any two moments of one incarnation: equal versions mean equal content but for the last-sync annotation |
| History.SameLifeIffCreation | internal/cloud/runtime/cache/hooks.go:31-44 | when no object is created twice at one clock value, two views are of one incarnation if and only if they show the same creation time |
| History.NoLostUpdate | internal/cloud/runtime/cache/client.go:198-211 | when no object is created twice at one clock value, an Update accepted with the version its client read replaces exactly the content the client read, if the creation time is the one it read |
| History.PatchIsAtomic | internal/cloud/runtime/cache/client.go:274-319 | under the same condition a Patch that reads in one locked section and writes in a later one, whatever comes between, has the effect of patching the object as it is when it writes |
| History.VersionUsedOnce | internal/cloud/runtime/cache/client.go:200-202 | under the same assumption, after an effective Update another with the same version is refused as long as the object has its creation time |
| History.HistoryCovered | internal/cloud/runtime/cache/gc.go:78-114 | every tracked object marked by the delete path has a request queued, delayed or in somebody's hand, in every reachable state |
| History.MarkedStaysRequested | internal/cloud/runtime/cache/gc.go:78-114 | an object marked by a deletion is queued, delayed or in somebody's hand at every later moment at which it is tracked, until it is created again |
| Notifications.StoreReports | internal/cloud/runtime/cache/hooks.go:39-69 | Create and Update notify exactly what changed, pointers aside, each change once, with the object as tracked |
| Notifications.StepReports | internal/cloud/runtime/cache/hooks.go:61-69 | every step: Create events for new objects, Delete events for objects newly marked, Update events for the other version changes, a sync event for a sync, and no others |
| Notifications.HistoryFaithful | internal/cloud/runtime/cache/informer.go:59-117 | in every reachable state the last notification about a tracked object carries the object as tracked, pointers aside |
| Notifications.DeletedOnce | internal/cloud/runtime/cache/hooks.go:61-65 | two Delete notifications about one name, anywhere in a history, are of different incarnations |
| Limits.CycleIsReachable | internal/cloud/runtime/cache/client.go:174-187 | a history of one Create and one Update after which a deletion need not come back |
| Limits.DoubleReferenceBreaksIntegrity | internal/cloud/runtime/cache/client.go:239-249 | a history that leaves an unmarked object with an owner that does not exist |
| Limits.RecreationLosesUpdate | internal/cloud/runtime/cache/hooks.go:35 | a history in which an Update with the version of a deleted object overwrites its successor |
| Limits.RecreationIsCaught | internal/cloud/runtime/cache/client.go:395-440 | a history in which deleting an owner succeeds and removes an object that never named it |
| Limits.ReaddedReferenceCloses | internal/cloud/runtime/cache/client.go:252-269 | a history whose one Update changes nothing that DeepEqual sees and closes an ownership cycle |
| SyncBounds.StalenessBound | internal/cloud/runtime/cache/sync.go:57-60 | with scans at most a gap apart and requests handled within a latency, every last sync is younger than period, gap and latency together |
| SyncBounds.BoundAttained | internal/cloud/runtime/cache/sync.go:116-183 | for every period, gap and latency a history that reaches that age less a nanosecond |
| SyncBounds.StalenessIff | internal/cloud/runtime/cache/sync.go:57-183 | no last sync is ever older than a given age if and only if that age is at least period, gap and latency less a nanosecond |
| SyncBounds.QuarterBoundIff | internal/cloud/runtime/cache/sync.go:57-60 | with scans every quarter period, "1.25 periods and a second" holds if and only if the latency is at most a second and a nanosecond |
| SyncBounds.HandledStalenessIff | internal/cloud/runtime/cache/sync.go:104-183 | handled before the next scan: an age is never exceeded if and only if it is at least the period and two gaps less a nanosecond |
| SyncBounds.StalenessBeforeNextScan | internal/cloud/runtime/cache/sync.go:104-183 | handled before the next scan: less than the period and two gaps |
| SyncBounds.BeforeNextScanIsNotASecond | internal/cloud/runtime/cache/sync.go:116-138 | with the program's period, a history that handles requests before the next scan and exceeds 1.25 periods and a second |
| SyncBounds.NotQueuedEarly | internal/cloud/runtime/cache/sync.go:116-138 | an object created, synced or brought to a new version is queued by no scan before the whole second of that time plus the period |
| Machine.DueIff | internal/cloud/runtime/cache/sync.go:116-138 | an object is due if and only if it was never synced or the period has passed since the second of its last sync |
| Ownership.SyncStamps | internal/cloud/runtime/cache/sync.go:156-183 | a sync gives one object the present second as last sync, notifies it, and changes nothing else; without the object it does nothing |
| Cache.FlattenPut | internal/cloud/runtime/cache/client.go:207-222 | an entry of the two-level map is an entry of the flat one |
| Cache.ResourceGroupTracker.UpdateOwnerReferences | internal/cloud/runtime/cache/client.go:228-272 | the nested loops compute the reindexed map; their ignored parse errors cannot occur |
| Cache.ResourceGroupTracker.Store | internal/cloud/runtime/cache/client.go:171-226 | the locked section refines the store on the flat view, also when it creates an empty bucket and fails |
| Cache.ResourceGroupTracker.Settle | internal/cloud/runtime/cache/client.go:412-442 | marking or removing in place is the settling step on the flat view; it reports a deletion if and only if there are no finalizers, and an object with finalizers stays |
| Cache.Cache.AddResourceGroup | internal/cloud/runtime/cache/cache.go:155-165 | a new group is empty, an old one untouched |
| Cache.Cache.DeleteResourceGroup | internal/cloud/runtime/cache/cache.go:167-171 | the group and nothing else is gone |
| Cache.Cache.Get | internal/cloud/runtime/cache/client.go:36-76 | the tracked object of that name, or the error of the first check that fails, a nil object and a failed conversion among them |
| Cache.Cache.List | internal/cloud/runtime/cache/client.go:78-138 | exactly the tracked objects of the kind, namespace and selector, each once, or the error of the first check that fails, or an internal error if one of them cannot be converted |
| Cache.SelectsIff | internal/cloud/runtime/cache/cache.go:194-196 | a list of a kind with "List" at its end asks for the objects of the kind before it, of the same group and version, in the namespace if one is named, that the selector accepts |
| Cache.Cache.Store | internal/cloud/runtime/cache/client.go:148-226 | the checks in their order, then the store on the group's value; the caller's object becomes the stored one on success |
| Cache.ChecksAre | internal/cloud/runtime/cache/client.go:148-169 | which check fails first before the lock is taken, in Create, Update, Get, List and Delete |
| Cache.Cache.PatchRead | internal/cloud/runtime/cache/client.go:274-316 | the patch applied to the object as read, or the error of the check, the read or the patch |
| Cache.Cache.PatchWrite | internal/cloud/runtime/cache/client.go:318 | the patched object goes through the checks and the Update, whose effect Cache.PatchStores and Cache.PatchRefuses give |
| Cache.Cache.Patch | internal/cloud/runtime/cache/client.go:274-319 | the two sections one after the other; every failure before the write is named and changes nothing; what a success leaves is Cache.PatchStores |
| Cache.PatchStores | internal/cloud/runtime/cache/client.go:274-319 | when the object is tracked and convertible, the patch applies and keeps name and version, the owners are tracked and the checks pass, there is no error, and the object has the patched payload, owners and finalizers, its creation time, and the next version if that is a change; every other object stays |
| Cache.PatchRefuses | internal/cloud/runtime/cache/client.go:274-319 | a missing object, a failed conversion, a failed patch and a changed version each fail, and no failure changes anything |
| Cache.Cache.DoTryDeleteLocked | internal/cloud/runtime/cache/client.go:382-443 | the recursive method over mutable maps and the request queue refines the recursion on values |
| Cache.Cache.TryDelete | internal/cloud/runtime/cache/client.go:368-378 | an outcome of the cascade on the group's value, or BadRequest without a group |
| Cache.Cache.Delete | internal/cloud/runtime/cache/client.go:333-366 | the checks, the cascade, the caller's own request, and no other group touched; after a success the object is still there if and only if it had finalizers |
| Cache.Cache.ProcessGarbageCollectorWorkItem | internal/cloud/runtime/cache/gc.go:78-114 | the item's cascade with the item out of the queue, then forgotten if gone and scheduled again if not |
| Cache.Cache.SyncResourceGroupTracker | internal/cloud/runtime/cache/sync.go:116-138 | the scan queues exactly the due objects of the group and counts them |
| Cache.Cache.ProcessSyncWorkItem | internal/cloud/runtime/cache/sync.go:140-183 | the item is a sync of the group's value, or nothing when the object is gone |
| Controller.GetOk | internal/cloud/runtime/controller/controller.go:170-176 | taking a request keeps the queue's invariant; what is taken is the first in the queue, in no other worker's hands, and no longer dirty |
| Controller.NoMissedChange | internal/cloud/runtime/source/informer_source.go:63-117 | in every reachable state each tracked object of the watched kind is as when the last Reconcile of its key began, pointers aside, or another one is due |
| Controller.TrackedIsDueOrSeen | internal/cloud/runtime/source/informer_source.go:63-117 | the same in plain fields: the request with the object's key is dirty, delayed or just taken, or the last Reconcile of it began with the object equal to the present one |
| Controller.NotifiedIsReconciled | internal/cloud/runtime/handler/enqueue_object.go:34-95 | a notification keeps the request with its object's key dirty, delayed or just taken until a Reconcile of it begins |
| Controller.FailedIsRetried | internal/cloud/runtime/controller/controller.go:191-202 | so does a reconcile that gives an error, a positive delay or a requeue |
| Controller.OneWorkerPerRequest | internal/cloud/runtime/controller/controller.go:170-180 | a request in one worker's hands is not taken by another |
| Controller.BackoffCounts | internal/cloud/runtime/controller/controller.go:191-202 | the rate limiter's count of a request is the number of its reconciles in a row that failed or asked for another without a time |
| Controller.HandledIs | internal/cloud/runtime/controller/controller.go:182-203 | the request is delayed if and only if there is an error, a positive delay or a requeue; the count goes up by one on an error or a requeue without a delay, and is cleared otherwise |
| Controller.HandlerAdds | internal/cloud/runtime/handler/enqueue_object.go:34-95 | the handler schedules the key of the object, whatever the kind of notification |
| Controller.AddAllIs | internal/cloud/runtime/source/informer_source.go:63-117 | of a sequence of notifications exactly those of the watched kind make the requests of their objects dirty |
| Controller.QueueController.Enqueue | internal/cloud/runtime/handler/enqueue_object.go:34-95 | the request with the object's group and key becomes dirty and no other; an update without a new object takes the old one; without any nothing happens |
| Controller.QueueController.OnEvent | internal/cloud/runtime/source/informer_source.go:63-117 | the event is enqueued if and only if all predicates pass it |
| Controller.QueueController.ReconcileHandler | internal/cloud/runtime/controller/controller.go:182-203 | an error or a bare requeue counts and delays, a positive delay forgets and delays, success forgets; the request is delayed if and only if it must come again |
| Controller.QueueController.ProcessNextWorkItem | internal/cloud/runtime/controller/controller.go:170-180 | a whole turn keeps the queue's invariant, releases the first request, delays it if and only if it must come again, and drops no other; the worker ends exactly when the queue is shut down and empty |
| Mux.HostPortInjective | internal/server/listener.go:68-75 | addresses are equal if and only if host and port are, for hosts with colons too |
| Mux.HostPortIs | internal/server/listener.go:68-75 | host, colon and decimal port, with the host in brackets if and only if it has a colon; the address puts https:// before |
| Mux.PortsDistinct | internal/server/mux.go:252-266 | in a sound mux two names never share a port |
| Mux.InitKeeps | internal/server/mux.go:232-248 | initialising keeps the maps inverse and ports in range, moves no listener, gives a new name the mux's host and the next port, is idempotent per name, and fails only when ports are used up, changing nothing |
| Mux.Capacity | internal/server/mux.go:440-450 | distinct new names are served exactly while ports last: maxPort - minPort + 1 of them from a fresh mux |
| Mux.RestartSucceedsWhen | internal/server/mux.go:189-226 | HotRestart succeeds if and only if there is nothing to do or the mux is empty and every endpoint has its host and an annotation; ports play no part |
| Mux.RestartRestores | internal/server/mux.go:187-229 | from distinct groups, every item with an endpoint has its host and port as the listener of its group, there is no other listener, and the port index is above the highest port |
| Mux.RestartInverse | internal/server/mux.go:199-217 | the maps are then inverse if and only if the ports are distinct |
| Mux.RestartSound | internal/server/mux.go:187-229 | with distinct ports in range the restarted mux is sound |
| Mux.WorkloadClustersMux.HotRestart | internal/server/mux.go:187-229 | the loop with its running maximum and its never-filled set of ports computes the restart on values; it succeeds if and only if there is nothing to do, or there are no listeners and every item with an endpoint has the mux's host and an annotation |
| Mux.WorkloadClustersMux.InitWorkloadClusterListener | internal/server/mux.go:232-248 | the listener and the new state of the initialisation on values |
| Mux.WorkloadClustersMux.GetFreePortLocked | internal/server/mux.go:440-450 | the next port, or none and no change beyond the last |
| Endpoints.GroupOfInjective | internal/controllers/goofycluster_controller.go:157 | clusters with the same resource group are the same |
| Endpoints.GroupOfIs | internal/controllers/goofycluster_controller.go:157 | the resource group is namespace, slash and name, or the name alone without a namespace |
| Endpoints.HotRestartServes | internal/controllers/goofycluster_controller.go:126-153 | from any state that keeps the invariant, hot restart succeeds and every persisted endpoint is its listener's |
| Endpoints.PatchSane | internal/controllers/goofycluster_controller.go:95-107 | the deferred patch never changes a set endpoint, writes one only as its listener has it, and leaves a sane record if and only if it meets its guard |
| Endpoints.PatchMerges | internal/controllers/goofycluster_controller.go:95-107 | the deferred patch writes the fields in which the reconcile's copy differs from what it read, to its own object alone |
| Endpoints.StepKeeps | internal/controllers/goofycluster_controller.go:62-124 | creations, deletions, reconcile steps on reads of any age, failed patches and crashes keep the invariant; a patch does if and only if it meets its guard |
| Endpoints.HistoryKeeps | internal/controllers/goofycluster_controller.go:62-189 | the invariant in every state of any interleaving whose patches meet their guard |
| Endpoints.GentleIsAnnotated | internal/controllers/goofycluster_controller.go:95-107 | they all do, if no read is of an earlier incarnation and no object is recreated under a reconcile that has read its annotation but no endpoint |
| Endpoints.EndpointStable | internal/controllers/goofycluster_controller.go:178-182 | in such histories a persisted endpoint never changes while its object exists, whatever runs or crashes |
| Endpoints.EndpointsDiffer | internal/controllers/goofycluster_controller.go:178-182 | in such histories persisted endpoints of different clusters are different addresses |
| Endpoints.RestartAlwaysSucceeds | internal/server/mux.go:187-229 | in such histories every hot restart succeeds and serves all persisted endpoints |
| Endpoints.RequestsReachTheirCluster | internal/server/mux.go:122-130 | in such histories, once a hot restart is done, the address a cluster was given resolves to that cluster's resource group, while its object exists |
| Endpoints.RecreatedMidFlight | internal/controllers/goofycluster_controller.go:95-107 | after a recreation under a reconcile, its patch and a crash, every hot restart succeeds if and only if the reconcile had read an endpoint or no annotation |
| Endpoints.UnannotatedSticks | internal/server/mux.go:214-217 | a patch that misses its guard and a crash lead to a stuck state |
| Endpoints.StuckForGood | internal/server/mux.go:214-217 | from a stuck state no hot restart succeeds, in any history, until the object is deleted |
| Endpoints.RecreationCanStick | internal/controllers/goofycluster_controller.go:62-189 | a history of the program, with its range of ports, that ends stuck |
| Endpoints.GoofyClusterReconciler.ReconcileHotRestart | internal/controllers/goofycluster_controller.go:126-153 | restarts at most once successfully and remembers it |
| Endpoints.GoofyClusterReconciler.ReconcileNormal | internal/controllers/goofycluster_controller.go:155-189 | annotation first, then the listener, then an endpoint only where none is set: the host and port of the group's listener; a failure leaves the annotation alone |
| Endpoints.GoofyClusterReconciler.Reconcile | internal/controllers/goofycluster_controller.go:62-124 | an undisturbed reconcile takes the protocol's steps: none without object or owner, no patch after a failed hot restart, no listener for a missing finalizer or a deletion |
| Endpoints.FirstReconcile | internal/controllers/goofycluster_controller.go:155-189 | an undisturbed reconcile of an object without endpoint stores its group and the endpoint of the group's listener, or of a new one on the mux's host at the next port; with the ports used up, the group alone |
| Endpoints.LaterReconcile | internal/controllers/goofycluster_controller.go:155-189 | an undisturbed reconcile of an object with an endpoint changes nothing, in store or mux |
| Streams.OldClientsPair | internal/server/api/portforward/httpstreams.go:128-160 | without request IDs a data stream joins an error stream if and only if its identifier is two higher |
| Streams.RequestIdIff | internal/server/api/portforward/httpstreams.go:128-160 | two streams with request headers are of one request if and only if the headers are equal; without headers by type and identifier; a header and an identifier by the decimal numeral |
| Streams.ReceiveQueues | internal/server/api/portforward/httpstreams.go:36-50 | streams of the types error and data reach the loop, no others do |
| Streams.DoubleCloseWhen | internal/server/api/portforward/httpstreams.go:252-274 | a closed channel is closed again if and only if a stream of another type is added to a complete pair |
| Streams.StepSafe | internal/server/api/portforward/httpstreams.go:99-208 | every step of the loop, the monitors and the timeouts keeps pairs safe and the map equal to the pairs not yet removed |
| Streams.ForwardedOnce | internal/server/api/portforward/httpstreams.go:99-125 | over any run each pair is closed and forwarded at most once, forwarded if and only if both streams are there, and these are a data and an error stream with equal request headers, or without any and with identifiers two apart |
| Streams.AddPlaces | internal/server/api/portforward/httpstreams.go:111-122 | the stream in hand fills its slot and starts the forwarder if and only if the other is filled; when its slot is taken it is rejected and no pair changes |
| Streams.SecondTurn | internal/server/api/portforward/httpstreams.go:99-125 | the second stream of a request completes the pair of the first, whatever came between, and its forwarder starts |
| Streams.RequestIsServed | internal/server/api/portforward/httpstreams.go:99-125 | the two streams of a new request, in either order, end in one pair of their own, closed and forwarded once, with nothing rejected |
| Streams.RemovesItsOwn | internal/server/api/portforward/httpstreams.go:185-208 | a monitor always finds and removes the very pair it was made for, and no other |
| Streams.SlotsStay | internal/server/api/portforward/httpstreams.go:252-274 | a slot once filled keeps its stream, also after a timeout and a new pair of the same request ID |
| Streams.HistoryConserves | internal/server/api/portforward/httpstreams.go:99-125 | every stream the loop has taken is in one slot of one pair, in its hand, or rejected |
| Streams.HttpStreamPair.Add | internal/server/api/portforward/httpstreams.go:252-274 | fills the slot of the stream's type or fails, and closes the channel when both are filled, never twice |
| Streams.HttpStreamHandler.GetStreamPair | internal/server/api/portforward/httpstreams.go:165-180 | the pair of the request ID, new if and only if there was none |
| Streams.HttpStreamHandler.RemoveStreamPair | internal/server/api/portforward/httpstreams.go:198-207 | removes the entry, and with a connection releases its streams, for which the entry must be there |
| Etcd.ElectsLatest | internal/server/etcd/handler.go:205-210 | the loop elects a member with the latest leader-from time after the zero time, or none |
| Etcd.LeaderIndependentIff | internal/server/etcd/handler.go:191-227 | the leader is the same for every order of the pods if and only if the members with the latest time have one ID |
| Etcd.DistinctTimesAgree | internal/server/etcd/handler.go:205-210 | distinct times are enough for that |
| Etcd.OrderOfPods | internal/server/etcd/handler.go:193-227 | in another order the inspection fails or succeeds alike and lists the same members |
| Etcd.WellFormedIff | internal/server/etcd/handler.go:194-203 | a pod is read if and only if both ID annotations are decimal numbers of 64 bits with sign |
| Etcd.MemberIs | internal/server/etcd/handler.go:222-225 | the member's ID is the number of the member annotation, plus two to the 64th if negative, and its name goes without "etcd-" |
| Etcd.HeaderIs | internal/server/etcd/handler.go:212-219 | the header has the cluster and member ID of the last pod of the asked name |
| Etcd.InspectEtcd | internal/server/etcd/handler.go:182-230 | lists the system namespace's etcd pods and fails with the listing; then fails if and only if some ID annotation does not parse; otherwise one member per pod, the elected leader, and a header if and only if some pod has the asked name |

## Left out

- Cache.Cache.Patch: the patch is a function on objects that may fail. JSON merge patch (section 2 of RFC 7396) and the codecs are library code. What may come between its two locked sections is covered by `History.PatchIsAtomic`, not by this method, which runs them one after the other.
- Cache.Cache.Get: the conversion of an object into the caller's either fails or copies it.
- Cache.Cache.DoTryDeleteLocked: asks for a recursion depth that suffices, since the program does not return without one; `Deletion.FinishesIffBounded` says when there is one.
- Cache.Cache.Store: annotations, labels, specification and status are one payload; scheme conversion and deep copies are the identity on values.
- Controller.QueueController.ReconcileHandler: how long the delays are, and the dropping of additions to a queue that shuts down (client-go is not part of this model); a delayed request may wake at any time.
- Controller.QueueController.ProcessNextWorkItem: one turn by itself; the histories of `Controller` have what other workers and sources do meanwhile.
- Endpoints.GoofyClusterReconciler.Reconcile: errors of the API client, the finalizer and the status themselves; the removal of the object that follows from its last finalizer is a deletion of the protocol.
- Etcd.InspectEtcd: the caller's trimming of the member name, which keeps a pod named with the prefix from ever matching, so that the header stays unset, is seen in the contract only as the comparison of the untrimmed pod name.
- `Machine` has the locked sections, not the checks before them (those are in `Cache`): it lets any stored object be updated and deleted, where the program refuses both for an object with an empty name.
- Nil and empty maps and slices are the same; a deletion timestamp that points at the zero time is not modelled; resource versions do not overflow.
- Handlers that change the notified object through the shared pointer.
- DeleteResourceGroup racing with an operation that already holds the tracker, and the collector's requests for a removed group, which are tried forever.
- Lock order and deadlocks: the syncer and the store take the cache's and the tracker's locks in different orders.
- A panic on a nil annotation map in the GoofyCluster reconciler, and writes of the endpoint by users.
- TLS, certificates, net listeners, the HTTP, gRPC and SPDY servers, REST routing, the proxy dialer and kubeconfigs: I/O around the state modelled here.
- The machine reconciler, webhooks, generated deep copies, the builder and the main program: sequences of calls to what is modelled.
