/** The objects the replication-group controller reads and writes, restricted
    to the fields it touches, and the metadata keys that form its protocol. */
module Types {

  datatype Option<+T> = None | Some(value: T)

  /** What a read against a store answers: the object, "not found", or any other error. */
  datatype Lookup<+T> = Found(value: T) | NotFound | Failed

  // Keys and values defined by the controllers package. Their exact text is
  // not part of this model; what matters is that the keys are pairwise distinct
  // and that the "delete" retention value is lower case.
  const RemoteReplicationGroupKey := "replication.storage.dell.com/remoteReplicationGroupName"
  const RGSyncCompleteKey := "replication.storage.dell.com/rgSyncComplete"
  const RemoteRGRetentionPolicyKey := "replication.storage.dell.com/remoteRGRetentionPolicy"
  const RemoteClusterIdKey := "replication.storage.dell.com/remoteClusterID"
  const DeletionRequestedKey := "replication.storage.dell.com/deletionRequested"
  const ActionProcessedTimeKey := "replication.storage.dell.com/actionProcessedTime"
  const ContextPrefixKey := "replication.storage.dell.com/contextPrefix"
  const SnapshotClassKey := "replication.storage.dell.com/snapshotClass"
  const DriverNameKey := "replication.storage.dell.com/driverName"
  const ReplicationGroupLabel := "replication.storage.dell.com/replicationGroupName"
  const ActionKey := "replication.storage.dell.com/action"
  const StorageClassReplicationParam := "replication.storage.dell.com/isReplicationEnabled"
  const RGFinalizer := "replication.storage.dell.com/rgProtectionFinalizer"
  const RetentionDelete := "delete"
  const RetentionRetain := "retain"
  /** The cluster identifier that means "replicate within this cluster". */
  const Self := "self"
  /** The package constant `replicated`. */
  const Replicated := "replicated"

  /** The annotation keys the mirror carries differ from each other and from
      the keys the controller later looks for on it. */
  lemma MirrorKeysDistinct()
    ensures RemoteReplicationGroupKey != RemoteRGRetentionPolicyKey
    ensures RemoteReplicationGroupKey != RemoteClusterIdKey
    ensures RemoteRGRetentionPolicyKey != RemoteClusterIdKey
    ensures DeletionRequestedKey !in {RemoteReplicationGroupKey, RemoteRGRetentionPolicyKey, RemoteClusterIdKey}
    ensures RGSyncCompleteKey !in {RemoteReplicationGroupKey, RemoteRGRetentionPolicyKey, RemoteClusterIdKey}
  {
  }

  datatype GroupSpec = GroupSpec(
    driverName: string,
    action: string,
    remoteClusterId: string,
    protectionGroupId: string,
    protectionGroupAttributes: map<string, string>,
    remoteProtectionGroupId: string,
    remoteProtectionGroupAttributes: map<string, string>)

  /** The status record of the last action. `attributes` is the Go map of
      volume handle to snapshot handle in the order a range loop visits it;
      `time` is the rendered timestamp, absent when the Go field is nil. */
  datatype LastAction = LastAction(
    condition: string,
    attributes: seq<(string, string)>,
    errorMessage: string,
    time: Option<string>)

  datatype GroupStatus = GroupStatus(conditions: seq<string>, lastAction: LastAction)

  /** A DellCSIReplicationGroup. `annotations` is None for a nil map;
      `deleting` stands for a non-zero deletion timestamp. */
  datatype Group = Group(
    name: string,
    annotations: Option<map<string, string>>,
    labels: map<string, string>,
    finalizers: set<string>,
    deleting: bool,
    spec: GroupSpec,
    status: GroupStatus)

  const EmptyStatus := GroupStatus([], LastAction("", [], "", None))

  /** Indexing the annotation map, as Go does: "" for a missing key or a nil map. */
  function Annotation(g: Group, key: string): string
  {
    if g.annotations.Some? && key in g.annotations.value then g.annotations.value[key] else ""
  }

  predicate HasAnnotation(g: Group, key: string)
  {
    g.annotations.Some? && key in g.annotations.value
  }

  function Label(g: Group, key: string): string
  {
    if key in g.labels then g.labels[key] else ""
  }

  /** controller.AddAnnotation: sets one key, allocating the map when it is nil. */
  function AddAnnotation(g: Group, key: string, value: string): (r: Group)
    ensures HasAnnotation(r, key) && Annotation(r, key) == value
    ensures forall k :: k != key ==> (HasAnnotation(r, k) <==> HasAnnotation(g, k)) && Annotation(r, k) == Annotation(g, k)
    ensures r.name == g.name && r.labels == g.labels && r.finalizers == g.finalizers
    ensures r.deleting == g.deleting && r.spec == g.spec && r.status == g.status
  {
    var m := if g.annotations.Some? then g.annotations.value else map[];
    g.(annotations := Some(m[key := value]))
  }

  datatype EventType = Normal | Warning

  /** What an event reports, with the values its message interpolates. */
  datatype EventCause =
    | MirrorCreated(mirrorName: string, clusterId: string)
    | MirrorCreateFailed(clusterId: string)
    | ConflictingMirror(clusterId: string)
    | LastActionFailed(condition: string)

  datatype Event = Event(kind: EventType, reason: string, cause: EventCause)

  const ReasonUpdated := "Updated"

  /** How a pass ends: ctrl.Result{} with a nil error, Requeue, RequeueAfter,
      or a non-nil error (which overrides any requeue request). */
  datatype PassResult = Done | Requeue | RequeueAfter(millis: nat) | Fail

  datatype ObjectKey = ObjectKey(namespace: string, name: string)

  datatype ObjectReference = ObjectReference(kind: string, apiVersion: string, name: string, namespace: string)

  datatype SnapshotClass = SnapshotClass(name: string, driver: string, deletionPolicy: string)

  datatype SnapshotContent = SnapshotContent(
    name: string,
    snapshotRef: ObjectReference,
    snapshotHandle: string,
    className: string,
    deletionPolicy: string,
    driver: string)

  datatype VolumeSnapshot = VolumeSnapshot(name: string, namespace: string, contentName: string, className: string)

  datatype DataSource = DataSource(apiGroup: string, kind: string, name: string)

  /** The PersistentVolumeClaimSpec fields involved; `resources` stands for the
      resource requirements, copied as a whole. */
  datatype ClaimSpec = ClaimSpec(
    accessModes: seq<string>,
    resources: map<string, string>,
    storageClassName: string,
    volumeName: string,
    dataSource: Option<DataSource>)

  datatype Claim = Claim(name: string, namespace: string, labels: map<string, string>, spec: ClaimSpec)

  /** A PersistentVolume with its CSI source's volume handle. */
  datatype Volume = Volume(name: string, volumeHandle: string)

  datatype StorageClass = StorageClass(name: string, parameters: map<string, string>)

  /** The decoded action annotation; only the snapshot namespace is used. */
  datatype ActionAnnotation = ActionAnnotation(snapshotNamespace: string)

  datatype Verb = Get | List | Create | Update | Delete | Connect

  datatype Resource =
    | ReplicationGroups | Namespaces | SnapshotClasses | SnapshotContents
    | VolumeSnapshots | StorageClasses | Claims | Volumes | Connection

  /** A request a store answers with an error (other than "not found"). */
  datatype Request = Request(verb: Verb, resource: Resource, name: string)
}
