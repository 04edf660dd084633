/** The pure pieces of the snapshot workflow: the object builders
    (dellcsireplicationgroup_controller.go, lines 505-583), the default
    snapshot-class name (lines 386-390) and the claim-creation test
    (lines 398-404). */
module Objects {
  import opened Types
  import opened Strings

  const SnapshotApiGroup := "snapshot.storage.k8s.io"
  const SnapshotApiVersion := "snapshot.storage.k8s.io/v1"
  const VolumeSnapshotKind := "VolumeSnapshot"
  const DeletionPolicyDelete := "Delete"

  /** The name of the snapshot object for a snapshot handle. */
  function SnapshotName(snapshotHandle: string): string
  {
    "snapshot-" + snapshotHandle
  }

  /** The name of the snapshot content for a volume handle, made unique by
      the clock reading `stamp` (the decimal Unix time). */
  function ContentName(volumeHandle: string, stamp: string): string
  {
    "volume-" + volumeHandle + "-" + stamp
  }

  /** makeSnapReference: where the snapshot object for `snapshotHandle` lives. */
  function MakeSnapReference(snapshotHandle: string, namespace: string): (r: ObjectReference)
    ensures r.name == SnapshotName(snapshotHandle) && r.namespace == namespace
    ensures r.kind == VolumeSnapshotKind && r.apiVersion == SnapshotApiVersion
  {
    ObjectReference(VolumeSnapshotKind, SnapshotApiVersion, SnapshotName(snapshotHandle), namespace)
  }

  /** makeSnapshotObject: a snapshot bound to a pre-provisioned content. */
  function MakeSnapshotObject(snapName: string, contentName: string, className: string, namespace: string): (r: VolumeSnapshot)
    ensures r.name == snapName && r.namespace == namespace
    ensures r.contentName == contentName && r.className == className
  {
    VolumeSnapshot(snapName, namespace, contentName, className)
  }

  /** makeSnapshotClassRef: a class for `driver` whose contents are deleted
      with their snapshots. */
  function MakeSnapshotClassRef(driver: string, snapClass: string): (r: SnapshotClass)
    ensures r.name == snapClass && r.driver == driver && r.deletionPolicy == DeletionPolicyDelete
  {
    SnapshotClass(snapClass, driver, DeletionPolicyDelete)
  }

  /** makeVolSnapContent: the content that adopts the array snapshot
      `snapshotHandle`, taken from the volume `volumeHandle`, and points at
      the snapshot object `ref`; class, driver and deletion policy come from
      the snapshot class. */
  function MakeVolSnapContent(snapshotHandle: string, volumeHandle: string, ref: ObjectReference,
                              sc: SnapshotClass, stamp: string): (r: SnapshotContent)
    ensures r.name == ContentName(volumeHandle, stamp)
    ensures r.snapshotRef == ref && r.snapshotHandle == snapshotHandle
    ensures r.className == sc.name && r.driver == sc.driver && r.deletionPolicy == sc.deletionPolicy
  {
    SnapshotContent(ContentName(volumeHandle, stamp), ref, snapshotHandle, sc.name, sc.deletionPolicy, sc.driver)
  }

  /** makePersistentVolumeClaimFromSnapshot: a claim restored from the
      snapshot `snapName`, with the source claim's access modes and resource
      requests and the storage class overridden. */
  function MakeClaimFromSnapshot(name: string, namespace: string, snapName: string, storageClass: string,
                                 spec: ClaimSpec): (r: Claim)
    ensures r.name == name && r.namespace == namespace && r.labels == map[]
    ensures r.spec.accessModes == spec.accessModes && r.spec.resources == spec.resources
    ensures r.spec.storageClassName == storageClass
    ensures r.spec.dataSource == Some(DataSource(SnapshotApiGroup, VolumeSnapshotKind, snapName))
  {
    Claim(name, namespace, map[], ClaimSpec(
      accessModes := spec.accessModes,
      resources := spec.resources,
      storageClassName := storageClass,
      volumeName := "",
      dataSource := Some(DataSource(SnapshotApiGroup, VolumeSnapshotKind, snapName))))
  }

  /** The snapshot class used when none is named: derived from the first
      dot-separated segment of the driver name, without a "csi-" prefix. */
  function DefaultSnapshotClassName(driver: string): string
  {
    "default-" + TrimPrefix(FirstSegment(driver, '.'), "csi-") + "-snapshotclass"
  }

  /** The segment before the first dot of `p + "." + rest` is `p` when `p`
      has no dot. */
  lemma {:induction false} FirstSegmentOf(p: string, rest: string)
    requires '.' !in p
    ensures FirstSegment(p + "." + rest, '.') == p
    decreases |p|
  {
    if p == [] {
      assert (p + "." + rest)[0] == '.';
    } else {
      assert (p + "." + rest)[1..] == p[1..] + "." + rest;
      FirstSegmentOf(p[1..], rest);
    }
  }

  /** For a driver `csi-<name>.<domain>` the default class is
      `default-<name>-snapshotclass`. */
  lemma DefaultClassOfQualifiedDriver(name: string, domain: string)
    requires '.' !in name
    ensures DefaultSnapshotClassName("csi-" + name + "." + domain) == "default-" + name + "-snapshotclass"
  {
    assert '.' !in "csi-" + name;
    FirstSegmentOf("csi-" + name, domain);
    assert ("csi-" + name)[..4] == "csi-";
    assert TrimPrefix("csi-" + name, "csi-") == name;
  }

  /** Claims are restored only when asked for with "true" and given a
      storage class. */
  predicate ShouldCreatePvc(createFlag: string, storageClass: string)
  {
    createFlag == "true" && storageClass != ""
  }

  /** The replication parameter of a storage class is set to "true". */
  predicate ReplicationEnabled(sc: StorageClass)
  {
    StorageClassReplicationParam in sc.parameters && sc.parameters[StorageClassReplicationParam] == "true"
  }
}
