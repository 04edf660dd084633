# Replication-group reconciler, modelled in Dafny

This project models the reconcile loop of the DellCSIReplicationGroup
controller of the CSM replication sidecar (`ReplicationGroupReconciler` in
`controllers/replication-controller/dellcsireplicationgroup_controller.go`).
A pass of `Reconcile` reads a local replication group (RG) and does four things:

- It looks up or creates its mirror RG on the remote cluster. The
  protection-group identifiers swap places, and the source cluster and the
  driver labels are stamped on the mirror.
- It runs the deletion handshake with the mirror when the local RG is being
  deleted. The retention policy decides, and the deletion-requested
  annotation records the request.
- It guards the local RG with its finalizer.
- Once mirroring is complete, it processes the RG's last action. A
  CREATE_SNAPSHOT action adopts the array snapshots on the remote cluster
  as snapshot contents and snapshots. It can also restore claims from them
  and create the snapshot class and the namespaces they need.

The model has two layers:

- Module `Workflow` states one pass as a function of the observed world:
  the local API server, the remote cluster and the event log.
- Module `Controller` holds the class `ReplicationGroupReconciler`. Its
  methods follow the Go code statement by statement, and each is proved to
  compute the corresponding `Workflow` function.

The properties are proved about the `Workflow` functions. They live in
`SnapshotProperties` (the claim scan and the snapshot loop) and in
`ReconcileProperties` (deletion, the finalizer, create/verify, the
action processor, invariants of every pass, and two passes in a row).

The other modules:

- `Types`: the objects.
- `LocalStore` and `RemoteCluster`: the two API servers. Each one is a
  state plus the set of requests it answers with an error. Creating a
  taken name fails; updating an absent object fails.
- `Mirror`: naming and building the mirror.
- `Objects`: the object builders.
- `Strings`: the string functions of Go's `strings` package that the
  controller uses.

The following behaviours of the code are modelled as written:

- `processLastActionResult` does nothing when the RG has no
  action-processed-time annotation.
- The action is stamped as processed even when the snapshot work fails.
  It is also stamped when the action annotation cannot be decoded.
- A namespace rewritten to `cloned-…` stays rewritten for the remaining
  pairs of the loop.
- A deleting RG whose finalizer is already gone falls through to the step
  that adds the finalizer. The API server refuses to add a finalizer to an
  object being deleted, so that pass fails.

## Model

| member | source | states |
|---|---|---|
| Controller.ReplicationGroupReconciler.Reconcile | controllers/replication-controller/dellcsireplicationgroup_controller.go:69-319 | one pass of Reconcile changes the local store, the remote cluster and the event log exactly as `Workflow.Reconcile` says, and returns its result |
| Controller.ReplicationGroupReconciler.BuildMirror | controllers/replication-controller/dellcsireplicationgroup_controller.go:79-144 | the name, the sync flag and the mirror object a pass works with are `Mirror.MirrorName`, the group's sync mark and `Mirror.MirrorObject`, labels included |
| Controller.ReplicationGroupReconciler.VerifyRemote | controllers/replication-controller/dellcsireplicationgroup_controller.go:222-298 | the lookup/create/verify step of the mirror agrees with `Workflow.Verify` |
| Controller.ReplicationGroupReconciler.RecordRemote | controllers/replication-controller/dellcsireplicationgroup_controller.go:300-318 | recording the mirror's name and the sync mark, or processing the last action and reporting its failure, agrees with `Workflow.Record` |
| Controller.ReplicationGroupReconciler.ProcessLastActionResult | controllers/replication-controller/dellcsireplicationgroup_controller.go:321-355 | the action processor's result, local store and remote cluster agree with `Workflow.ProcessLastAction`; it records no event |
| Controller.ReplicationGroupReconciler.ProcessSnapshotEvent | controllers/replication-controller/dellcsireplicationgroup_controller.go:357-417 | the snapshot event's result and remote cluster agree with `Workflow.SnapshotEvent` |
| Controller.ReplicationGroupReconciler.AdoptSnapshots | controllers/replication-controller/dellcsireplicationgroup_controller.go:419-476 | the loop over the (volume handle, snapshot handle) pairs stops at the first failure and leaves the remote cluster as `Workflow.Pairs` says |
| Controller.ReplicationGroupReconciler.GetPVCInformation | controllers/replication-controller/dellcsireplicationgroup_controller.go:479-503 | returns the first labelled claim whose volume carries the handle; a failed list or volume read is an error; none found is not an error |
| Controller.CreateNamespace | controllers/replication-controller/dellcsireplicationgroup_controller.go:585-593 | succeeds exactly when the remote cluster accepts the create, and then only the namespace is added |
| Controller.ReplicationGroupReconciler.Update | controllers/replication-controller/dellcsireplicationgroup_controller.go:203 | the local Update writes the group back, or removes it when it is deleting with no finalizers left; it is refused when it would add a finalizer to a group being deleted |
| Controller.ReplicationGroupReconciler.Delete | controllers/replication-controller/dellcsireplicationgroup_controller.go:219 | the local Delete marks the group deleting while finalizers remain |
| Controller.ReplicationGroupReconciler.Eventf | controllers/replication-controller/dellcsireplicationgroup_controller.go:270-271 | recording an event appends it to the event log and changes nothing else |
| Mirror.MirrorName | controllers/replication-controller/dellcsireplicationgroup_controller.go:79-104 | the mirror's name is `replicated-<name>` within one cluster unless the name already starts with `replicated`; otherwise it is the recorded name once synced, the recorded name or the group's own name before |
| Mirror.ApplyDriverLabels | controllers/replication-controller/dellcsireplicationgroup_controller.go:117-126 | the loop over the remote protection-group attributes adds exactly the projected driver labels, whatever the visiting order |
| Mirror.DriverLabelsExactly | controllers/replication-controller/dellcsireplicationgroup_controller.go:121-125 | label `domain + s` is present exactly when attribute `prefix + s` is, with the attribute's value |
| Mirror.LabelKeyInjective | controllers/replication-controller/dellcsireplicationgroup_controller.go:123 | two prefixed attributes never project onto the same label |
| Mirror.MirrorAnnotations | controllers/replication-controller/dellcsireplicationgroup_controller.go:107-110 | a new mirror is annotated with exactly the local group's name, its retention policy and the source cluster, and carries neither a deletion request nor a sync mark |
| Mirror.MirrorSpec | controllers/replication-controller/dellcsireplicationgroup_controller.go:133-141 | the mirror's spec swaps the local and remote protection-group fields, keeps the driver, carries no action and names the source cluster |
| Mirror.MirrorSpecInvolution | controllers/replication-controller/dellcsireplicationgroup_controller.go:133-141 | mirroring a mirror gives back the original protection groups |
| Mirror.MirrorObject | controllers/replication-controller/dellcsireplicationgroup_controller.go:106-144 | the mirror points back at the local group by name, carries its retention policy and source cluster, and has no deletion request, sync mark, finalizer or status |
| Mirror.RecordedName | controllers/replication-controller/dellcsireplicationgroup_controller.go:301-304 | the recorded name is the mirror's name, unless the local name contains `replicated`, in which case it is the local name without a leading `replicated-`, and the local name unchanged when it does not start with `replicated-` |
| Mirror.RetainByDefault | controllers/replication-controller/dellcsireplicationgroup_controller.go:152-158 | without a retention annotation the mirror is retained |
| Mirror.DeletesMirrorIgnoresCase | controllers/replication-controller/dellcsireplicationgroup_controller.go:180 | any capitalisation of `delete` asks for the mirror's deletion |
| Objects.MakeSnapReference | controllers/replication-controller/dellcsireplicationgroup_controller.go:513-520 | the reference names the snapshot `snapshot-<handle>` of kind VolumeSnapshot in the given namespace |
| Objects.MakeVolSnapContent | controllers/replication-controller/dellcsireplicationgroup_controller.go:548-564 | the content adopts the array snapshot, points at the snapshot reference and takes class, driver and deletion policy from the class |
| Objects.FirstSegmentOf | controllers/replication-controller/dellcsireplicationgroup_controller.go:389 | the part before the first dot of `p.rest` is `p` |
| Objects.DefaultClassOfQualifiedDriver | controllers/replication-controller/dellcsireplicationgroup_controller.go:383-391 | the default snapshot class of driver `csi-<name>.<domain>` is `default-<name>-snapshotclass` |
| Workflow.ScanClaims | controllers/replication-controller/dellcsireplicationgroup_controller.go:487-502 | a claim the scan returns is one of the listed claims and its volume carries the handle |
| SnapshotProperties.ScanClaimsFindsFirst | controllers/replication-controller/dellcsireplicationgroup_controller.go:487-499 | the returned claim is the first one backed by the handle, and every volume before it was read |
| SnapshotProperties.ScanClaimsNone | controllers/replication-controller/dellcsireplicationgroup_controller.go:487-502 | the scan finds nothing exactly when every volume was read and none carries the handle |
| SnapshotProperties.ScanClaimsFails | controllers/replication-controller/dellcsireplicationgroup_controller.go:487-494 | the scan fails exactly when a volume read fails before any match |
| SnapshotProperties.PairsSplit | controllers/replication-controller/dellcsireplicationgroup_controller.go:419-474 | the loop over `a + b` is the loop over `a` followed, unless it failed, by the loop over `b` from the namespace and cluster it left |
| SnapshotProperties.PairsOnlyAdd | controllers/replication-controller/dellcsireplicationgroup_controller.go:419-474 | the loop only adds namespaces, contents, snapshots and claims; it leaves groups, classes and existing objects unchanged |
| SnapshotProperties.PairsAdoptAll | controllers/replication-controller/dellcsireplicationgroup_controller.go:440-454 | when the loop succeeds, every pair has a content `volume-<volume handle>-<stamp>` holding the snapshot handle and the class, driver and deletion policy of the snapshot class, and a snapshot `snapshot-<snapshot handle>`, in the namespace the content refers to, bound to that content and that class |
| SnapshotProperties.NoClaimsUnlessAllowed | controllers/replication-controller/dellcsireplicationgroup_controller.go:398-404 | no claim is restored unless claims were asked for and the storage class does not have replication enabled |
| SnapshotProperties.PairsRestoreClaims | controllers/replication-controller/dellcsireplicationgroup_controller.go:456-470 | conversely, when claims are asked for and the storage class does not have replication enabled, a successful loop has restored every labelled claim backed by a pair's volume: a claim of that name, in the snapshot's namespace, sourced from `snapshot-<snapshot handle>`, asking for the storage class and keeping the access modes and requests |
| SnapshotProperties.PairStepLands | controllers/replication-controller/dellcsireplicationgroup_controller.go:430-454 | an iteration places the pair's content and snapshot in the namespace it hands on, which is never the namespace of the live claim the pair's volume backs, so a claim restored there does not collide with it; without that claim in the way the namespace is unchanged |
| SnapshotProperties.PairsLandIn | controllers/replication-controller/dellcsireplicationgroup_controller.go:419-454 | while no pair's claim lives in the current namespace, a successful loop stays in it and places every pair's content and snapshot there |
| SnapshotProperties.CloneNamespacePersists | controllers/replication-controller/dellcsireplicationgroup_controller.go:430-437 | after any prefix of the pairs, a claim found in the namespace reached moves that pair's objects and those of every later pair to `cloned-<namespace>`, up to a later pair whose claim lives there in turn |
| SnapshotProperties.UndecodableActionFails | controllers/replication-controller/dellcsireplicationgroup_controller.go:366-371 | an action annotation that does not decode is an error and nothing is created |
| SnapshotProperties.NamedClassMustExist | controllers/replication-controller/dellcsireplicationgroup_controller.go:391-395 | a snapshot class named by the group that cannot be read is an error, and no content, snapshot or claim is created |
| SnapshotProperties.SnapshotEventOnlyAdds | controllers/replication-controller/dellcsireplicationgroup_controller.go:357-476 | the snapshot event only adds to the remote cluster and keeps what exists; the only snapshot class it may add is the one of the group's class name |
| SnapshotProperties.DefaultClassCreated | controllers/replication-controller/dellcsireplicationgroup_controller.go:386-417 | when the class of the group's class name does not exist, a successful event has created it: the group names no class, the class is `default-<driver>-snapshotclass` for the driver label, with that driver and the Delete policy |
| SnapshotProperties.SnapshotEventAdoptsAll | controllers/replication-controller/dellcsireplicationgroup_controller.go:406-454 | a successful event decoded its action, has the class of the group's class name in place, and every pair of the action adopted with that class |
| SnapshotProperties.SnapshotEventKeepsGroups | controllers/replication-controller/dellcsireplicationgroup_controller.go:357-476 | the snapshot event never touches replication groups |
| ReconcileProperties.MissingGroupIgnored | controllers/replication-controller/dellcsireplicationgroup_controller.go:73-77 | a vanished group ends the pass without error; an unreadable one ends it with an error; nothing changes in either case |
| ReconcileProperties.UnreachedChangesNothing | controllers/replication-controller/dellcsireplicationgroup_controller.go:73-150 | a pass that does not get past the read, the annotation check and the connection changes nothing |
| ReconcileProperties.HandshakeRequestsDeletion | controllers/replication-controller/dellcsireplicationgroup_controller.go:161-191 | for a deleting group whose policy deletes the mirror, the mirror is marked for deletion and the pass is requeued after 1 ms; nothing local changes |
| ReconcileProperties.HandshakeAwaitsMirror | controllers/replication-controller/dellcsireplicationgroup_controller.go:180-194 | a mirror already marked for deletion makes the pass requeue without changing anything |
| ReconcileProperties.ReleasedOnlyWhenSafe | controllers/replication-controller/dellcsireplicationgroup_controller.go:161-205 | the finalizer of a deleting group is removed only when a deletion was requested, the mirror is gone or it is retained; when safe, removing it is all the pass does |
| ReconcileProperties.LostFinalizerNotRestored | controllers/replication-controller/dellcsireplicationgroup_controller.go:199-213 | a deleting group that has already lost the finalizer falls through to adding it, which the API server refuses: the pass fails and changes nothing |
| ReconcileProperties.DeletionCreatesNothing | controllers/replication-controller/dellcsireplicationgroup_controller.go:161-213 | a pass over a deleting group adds no remote group and records no event; under the retain policy it leaves the remote cluster alone |
| ReconcileProperties.FinalizerAddedFirst | controllers/replication-controller/dellcsireplicationgroup_controller.go:207-214 | a group without the finalizer gets it, and nothing else happens in that pass |
| ReconcileProperties.DeletionRequestHonoured | controllers/replication-controller/dellcsireplicationgroup_controller.go:215-220 | a group carrying a deletion request is deleted, and nothing else happens |
| ReconcileProperties.VanishedMirrorNotRecreated | controllers/replication-controller/dellcsireplicationgroup_controller.go:232-241 | a mirror missing after sync completed is not recreated, and the pass changes nothing |
| ReconcileProperties.CreateMirrorOutcome | controllers/replication-controller/dellcsireplicationgroup_controller.go:285-308 | creating a mirror under a name: a taken name or a failed create gives a warning event, an error and no other change; otherwise exactly that mirror is added and announced by a Normal event, and either its name and the sync mark are recorded locally or the pass fails with the local store unchanged |
| ReconcileProperties.CreatesMissingMirror | controllers/replication-controller/dellcsireplicationgroup_controller.go:246-308 | a missing mirror of a group not yet synced is created under the computed name and announced, and on success its name and the sync mark are recorded; a failed create is reported by a warning and changes nothing else |
| ReconcileProperties.RecursionGuard | controllers/replication-controller/dellcsireplicationgroup_controller.go:243-250 | a computed name containing `replicated-replicated` is not created, only recorded |
| ReconcileProperties.ConflictingMirrorStops | controllers/replication-controller/dellcsireplicationgroup_controller.go:255-276 | a mirror with this source and driver but other protection groups raises a warning event and stops the pass |
| ReconcileProperties.ForeignMirrorSidestepped | controllers/replication-controller/dellcsireplicationgroup_controller.go:254-308 | a group of another source or driver under the computed name is left intact; the mirror is made under `SourceClusterId-<source>-<name>`, announced and recorded, or its failed create is reported by a warning with nothing else changed |
| ReconcileProperties.FailedActionNotStamped | controllers/replication-controller/dellcsireplicationgroup_controller.go:329-331 | a failed last action is an error and is not recorded as processed |
| ReconcileProperties.UntrackedActionIgnored | controllers/replication-controller/dellcsireplicationgroup_controller.go:333-337 | a group without the processed-time annotation has no action processed |
| ReconcileProperties.ActionStampedEvenOnFailure | controllers/replication-controller/dellcsireplicationgroup_controller.go:344-354 | a pending action is recorded as processed whether or not its snapshot work succeeded |
| ReconcileProperties.ActionProcessedOnce | controllers/replication-controller/dellcsireplicationgroup_controller.go:339-352 | once recorded, the same action is never processed again |
| ReconcileProperties.ActionOnlyAdds | controllers/replication-controller/dellcsireplicationgroup_controller.go:344-348 | only a CREATE_SNAPSHOT action touches the remote cluster, and it only adds to it |
| ReconcileProperties.ActionFailureReported | controllers/replication-controller/dellcsireplicationgroup_controller.go:310-318 | a synced group with a matching mirror has its last action processed: the pass ends without error, keeps every remote group, only adds to the remote cluster, and records a warning exactly when the processing failed |
| ReconcileProperties.PassKeepsLocalNaming | controllers/replication-controller/dellcsireplicationgroup_controller.go:69-318 | every pass keeps the local store keyed by group name |
| ReconcileProperties.RemoteGroupsPreserved | controllers/replication-controller/dellcsireplicationgroup_controller.go:69-318 | no pass over a group replicated to another cluster deletes or rewrites a remote group: groups are only added under their own names or marked for deletion |
| ReconcileProperties.DeletionRequestSticky | controllers/replication-controller/dellcsireplicationgroup_controller.go:182-191 | a mirror on another cluster marked for deletion stays marked |
| ReconcileProperties.EventsAppendOnly | controllers/replication-controller/dellcsireplicationgroup_controller.go:270-316 | a pass appends at most one event and never rewrites earlier ones |
| ReconcileProperties.RecordedNameLeadsToMirror | controllers/replication-controller/dellcsireplicationgroup_controller.go:89-104 | after the mirror is recorded, the computed name leads back to it whenever the name recorded is the mirror's own or the name within one cluster is derived from the group's name alone |
| ReconcileProperties.PrefixedNameLosesMirror | controllers/replication-controller/dellcsireplicationgroup_controller.go:301-304 | as written, a group `replicated-x` on another cluster gets its mirror created as `replicated-x` but records `x`; later passes look for `x`, and a deletion finds no mirror to mark and releases the group |
| ReconcileProperties.IntendedRecordLeadsToMirror | controllers/replication-controller/dellcsireplicationgroup_controller.go:301-304 | with the intended recording, the computed name leads back to the mirror for every group except `replicated-x` within one cluster, which records the group `x` it mirrors |
| ReconcileProperties.SecondPassIsQuiet | controllers/replication-controller/dellcsireplicationgroup_controller.go:222-318 | after the pass that creates and records the mirror, the next pass finds that mirror and changes nothing, for every group whose recorded name is its mirror's |
| ReconcileProperties.QuietWhenMatched | controllers/replication-controller/dellcsireplicationgroup_controller.go:255-318 | a synced group whose mirror matches and whose last action needs no work has a pass that changes nothing |

## Left out

- SetupWithManager, the rate limiter and the controller-runtime plumbing are not modelled. They only wire the reconciler to the manager.
- Logging and the formatted text of events are left out. An event keeps its type, its reason and the values its message interpolates.
- The two API servers are values with a set of failing requests. Optimistic-concurrency conflicts, caches and watch delays are not modelled.
- `json.Unmarshal` of the action annotation is the configuration's `decode` parameter.
- The clock (`time.Now().Unix()` in content names) is one `stamp` string per pass. Contents created in the same pass share it.
- The last action's `Time.String()` is kept as an opaque string.
- Go's random map iteration order is an arbitrary sequence of pairs (the action attributes), or an arbitrary choice of key (the label loop).
- The result of the local Update at line 352 is ignored, as in the code. The model keeps the store the Update leaves behind.
- A volume without a CSI source makes the Go code panic at line 496. The model gives every volume a handle.
- Finalizers are a set. The controller's constants live in a package that is not part of this model, so their values are stand-ins. The proofs use only that they are distinct.
- `strings.ToLower` is modelled on ASCII letters only.
- `makeNamespaceReference` is folded into `CreateNamespace`: a namespace is modelled by its name.
- `Reconcile` is written as four methods (Reconcile, BuildMirror, VerifyRemote, RecordRemote). BuildMirror holds the construction of the mirror object; the other splits fall at the same points as its specification. The pair loop of `processSnapshotEvent` is its own method, AdoptSnapshots.
- Objects carry only the fields the controller reads or sets. Full Kubernetes schemas are not modelled.
- The local API server refuses to add a finalizer to an object being deleted. Its other admission rules are not modelled.
- RemoteGroupsPreserved: stated only for groups replicated to another cluster. Replication within one cluster (`self`) is modelled as two separate stores, but in the code both clients reach the same API server, so there the mirror is a local group that this controller also reconciles, marks and deletes.
- DeletionRequestSticky: stated only for groups replicated to another cluster, for the same reason.
- The local RG is a value that each pass reads afresh, as the Go code reads a private copy. It is not an object shared between passes.

## Findings

| source | as written | input that shows it | evidently intended | confidence | as-written member | corrected member |
|---|---|---|---|---|---|---|
| controllers/replication-controller/dellcsireplicationgroup_controller.go:301-304 | when the local name contains `replicated`, the name recorded is the local name without `replicated-`, whichever cluster the group replicates to | a group `replicated-x` replicating to another cluster, with no recorded mirror: the mirror is created as `replicated-x`, `x` is recorded, later passes look up `x`, and deleting the group releases it without marking the mirror | trim the prefix only for a group replicated within one cluster, and otherwise record the mirror just found or created | medium, not executed | ReconcileProperties.PrefixedNameLosesMirror | ReconcileProperties.IntendedRecordLeadsToMirror |

`Workflow.Recorded` and the controller keep the recording as written, so the
reconcile properties describe the code's behaviour. `Mirror.IntendedRecordedName`
and `Workflow.IntendedRecorded` give the corrected recording.
