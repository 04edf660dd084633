/** One reconcile pass of the replication-group controller as a function of
    the state it observes: the local store, the remote cluster and the events
    recorded so far. The imperative controller in module Controller is proved
    to compute exactly this; the properties of modules SnapshotProperties and
    ReconcileProperties are stated about it. */
module Workflow {
  import opened Types
  import opened Strings
  import opened Mirror
  import opened Objects
  import L = LocalStore
  import R = RemoteCluster

  /** What the reconciler is configured with: its own cluster identifier,
      the label domain, and the decoder of the action annotation's JSON. */
  datatype Config = Config(clusterId: string, domain: string, decode: string -> Option<ActionAnnotation>)

  /** Everything a pass can observe and change. */
  datatype World = World(local: L.Local, remote: R.Remote, events: seq<Event>)

  function Outcome(ok: bool): PassResult
  {
    if ok then Done else Fail
  }

  function Warn(cause: EventCause): Event
  {
    Event(Warning, ReasonUpdated, cause)
  }

  // ---------------------------------------------------------------------
  // getPVCInformation

  /** The volume named by a claim, when it can be read and carries `volumeHandle`. */
  predicate BacksHandle(l: L.Local, c: Claim, volumeHandle: string)
  {
    var v := L.VolumeAt(l, c.spec.volumeName);
    v.Found? && v.value.volumeHandle == volumeHandle
  }

  /** The scan over the listed claims: the first claim whose volume carries
      `volumeHandle`; reading a volume that fails or is absent ends the scan
      with an error. */
  function ScanClaims(l: L.Local, claims: seq<Claim>, volumeHandle: string): (r: Lookup<Claim>)
    ensures r.Found? ==> r.value in claims && BacksHandle(l, r.value, volumeHandle)
    decreases |claims|
  {
    if claims == [] then NotFound
    else match L.VolumeAt(l, claims[0].spec.volumeName)
      case Found(v) =>
        if v.volumeHandle == volumeHandle then Found(claims[0]) else ScanClaims(l, claims[1..], volumeHandle)
      case _ => Failed
  }

  /** getPVCInformation: the claims labelled with the group, scanned. */
  function FindClaim(l: L.Local, group: string, volumeHandle: string): Lookup<Claim>
  {
    match L.ClaimsOf(l, group)
    case None => Failed
    case Some(claims) => ScanClaims(l, claims, volumeHandle)
  }

  // ---------------------------------------------------------------------
  // processSnapshotEvent

  /** What stays fixed while the action's pairs are processed. */
  datatype Plan = Plan(group: string, snapshotClass: SnapshotClass, createClaims: bool, storageClass: string, stamp: string)

  /** The storage class exists and has replication enabled, so no claim is
      restored from the snapshot. */
  predicate SkipsClaim(c: R.Remote, storageClass: string)
  {
    var sc := R.StorageClassAt(c, storageClass);
    sc.Found? && ReplicationEnabled(sc.value)
  }

  /** The claim a pair's volume is bound to, looked up only when claims are
      to be restored; a failed lookup counts as none. */
  function PairClaim(l: L.Local, p: Plan, volumeHandle: string): Lookup<Claim>
  {
    if p.createClaims then FindClaim(l, p.group, volumeHandle) else NotFound
  }

  /** A claim living in the snapshot namespace makes the snapshots go to a
      "cloned-" namespace instead. */
  predicate Clones(claim: Lookup<Claim>, ns: string)
  {
    claim.Found? && claim.value.namespace == ns
  }

  /** The second half of an iteration: the snapshot content, the snapshot,
      and the restored claim when there is one and the storage class allows
      it, in namespace `ns`. */
  function Adopt(p: Plan, pair: (string, string), ns: string, claim: Lookup<Claim>, c: R.Remote): (r: (bool, R.Remote))
  {
    var (volumeHandle, snapshotHandle) := pair;
    var ref := MakeSnapReference(snapshotHandle, ns);
    var content := MakeVolSnapContent(snapshotHandle, volumeHandle, ref, p.snapshotClass, p.stamp);
    var (contentOk, c2) := R.AddSnapshotContent(c, content);
    if !contentOk then (false, c2)
    else
      var (snapOk, c3) := R.AddSnapshot(c2, MakeSnapshotObject(ref.name, content.name, p.snapshotClass.name, ns));
      if !snapOk then (false, c3)
      else if !claim.Found? || SkipsClaim(c3, p.storageClass) then (true, c3)
      else R.AddClaim(c3, MakeClaimFromSnapshot(claim.value.name, ns, ref.name, p.storageClass, claim.value.spec))
  }

  /** One iteration of the loop over the action's (volume handle, snapshot
      handle) pairs: returns whether it succeeded, the namespace later
      iterations use, and the remote cluster afterwards. */
  function PairStep(l: L.Local, p: Plan, pair: (string, string), ns: string, c: R.Remote): (r: (bool, string, R.Remote))
  {
    var claim := PairClaim(l, p, pair.0);
    var ns1 := if Clones(claim, ns) then "cloned-" + ns else ns;
    var (nsOk, c1) := if Clones(claim, ns) then R.AddNamespace(c, ns1) else (true, c);
    if !nsOk then (false, ns1, c1)
    else
      var (ok, c2) := Adopt(p, pair, ns1, claim, c1);
      (ok, ns1, c2)
  }

  /** The loop over the pairs, stopping at the first failure. */
  function Pairs(l: L.Local, p: Plan, pairs: seq<(string, string)>, ns: string, c: R.Remote): (r: (bool, string, R.Remote))
    decreases |pairs|
  {
    if pairs == [] then (true, ns, c)
    else
      var (ok, ns1, c1) := PairStep(l, p, pairs[0], ns, c);
      if !ok then (false, ns1, c1) else Pairs(l, p, pairs[1..], ns1, c1)
  }

  /** The annotation keys under the configured domain that ask for claims to
      be restored from the snapshots. */
  function StorageClassKey(domain: string): string { domain + "/snapshotStorageClass" }
  function CreateClaimsKey(domain: string): string { domain + "/snapshotCreatePVC" }

  /** The snapshot class the pass works with: the one the group names, or
      the default derived from the driver. */
  function ClassName(g: Group): string
  {
    var named := Annotation(g, SnapshotClassKey);
    if named == "" then DefaultSnapshotClassName(Label(g, DriverNameKey)) else named
  }

  /** processSnapshotEvent: returns whether it succeeded and the remote
      cluster afterwards. */
  function SnapshotEvent(cfg: Config, l: L.Local, g: Group, c: R.Remote, stamp: string): (r: (bool, R.Remote))
  {
    if !HasAnnotation(g, ActionKey) then (true, c)
    else match cfg.decode(Annotation(g, ActionKey))
      case None => (false, c)
      case Some(action) =>
        var ns := action.snapshotNamespace;
        var (nsOk, c1) := if R.NamespaceAt(c, ns).Found? then (true, c) else R.AddNamespace(c, ns);
        if !nsOk then (false, c1)
        else SnapshotsInto(cfg, l, g, ns, c1, stamp)
  }

  /** The rest of processSnapshotEvent once the snapshot namespace exists:
      settle the snapshot class, then adopt the pairs. */
  function SnapshotsInto(cfg: Config, l: L.Local, g: Group, ns: string, c1: R.Remote, stamp: string): (r: (bool, R.Remote))
  {
    if Annotation(g, SnapshotClassKey) != "" && !R.SnapshotClassAt(c1, ClassName(g)).Found? then (false, c1)
    else
      var storageClass := Annotation(g, StorageClassKey(cfg.domain));
      var createClaims := ShouldCreatePvc(Annotation(g, CreateClaimsKey(cfg.domain)), storageClass);
      match R.SnapshotClassAt(c1, ClassName(g))
      case Failed => (false, c1)
      case NotFound =>
        var sc := MakeSnapshotClassRef(Label(g, DriverNameKey), ClassName(g));
        var (scOk, c2) := R.AddSnapshotClass(c1, sc);
        if !scOk then (false, c2)
        else
          var (ok, _, c3) := Pairs(l, Plan(g.name, sc, createClaims, storageClass, stamp), g.status.lastAction.attributes, ns, c2);
          (ok, c3)
      case Found(sc) =>
        var (ok, _, c3) := Pairs(l, Plan(g.name, sc, createClaims, storageClass, stamp), g.status.lastAction.attributes, ns, c1);
        (ok, c3)
  }

  // ---------------------------------------------------------------------
  // processLastActionResult

  /** The last action needs processing: there is one, it succeeded, the
      group tracks processed actions and this one is not the one recorded. */
  predicate ActionPending(g: Group)
  {
    var la := g.status.lastAction;
    |g.status.conditions| != 0 && la.time.Some? && la.errorMessage == ""
    && HasAnnotation(g, ActionProcessedTimeKey) && Annotation(g, ActionProcessedTimeKey) != la.time.value
  }

  /** The group with the last action recorded as processed. */
  function Stamped(g: Group): Group
    requires g.status.lastAction.time.Some?
  {
    AddAnnotation(g, ActionProcessedTimeKey, g.status.lastAction.time.value)
  }

  /** processLastActionResult: returns whether it succeeded, and the local
      store and the remote cluster afterwards. */
  function ProcessLastAction(cfg: Config, l: L.Local, g: Group, c: R.Remote, stamp: string): (r: (bool, L.Local, R.Remote))
  {
    var la := g.status.lastAction;
    if |g.status.conditions| == 0 || la.time.None? then (true, l, c)
    else if la.errorMessage != "" then (false, l, c)
    else if !HasAnnotation(g, ActionProcessedTimeKey) then (true, l, c)
    else if Annotation(g, ActionProcessedTimeKey) == la.time.value then (true, l, c)
    else
      var (ok, c1) := if Contains(la.condition, "CREATE_SNAPSHOT") then SnapshotEvent(cfg, l, g, c, stamp) else (true, c);
      var (_, l1) := L.ReplaceGroup(l, Stamped(g));
      (ok, l1, c1)
  }

  // ---------------------------------------------------------------------
  // Reconcile

  /** The local group once the mirror is known to be in place. */
  function Recorded(g: Group, name: string, mirrorName: string): Group
  {
    AddAnnotation(AddAnnotation(g, RemoteReplicationGroupKey, RecordedName(name, mirrorName)), RGSyncCompleteKey, "yes")
  }

  /** Recorded, with the name the recording step evidently means to keep. */
  function IntendedRecorded(g: Group, name: string, mirrorName: string): Group
  {
    AddAnnotation(AddAnnotation(g, RemoteReplicationGroupKey, IntendedRecordedName(g, name, mirrorName)), RGSyncCompleteKey, "yes")
  }

  /** The end of a pass that got past the create/verify step: record the
      mirror's name when not yet synced, otherwise process the last action. */
  function Record(cfg: Config, name: string, g: Group, w: World, mirrorName: string, synced: bool, stamp: string): (r: (PassResult, World))
  {
    if !synced then
      var (ok, l1) := L.ReplaceGroup(w.local, Recorded(g, name, mirrorName));
      (Outcome(ok), w.(local := l1))
    else
      var (ok, l1, c1) := ProcessLastAction(cfg, w.local, g, w.remote, stamp);
      var events := if ok then w.events else w.events + [Warn(LastActionFailed(g.status.lastAction.condition))];
      (Done, World(l1, c1, events))
  }

  /** Creating the mirror under `mirrorName`, then recording it. */
  function CreateMirror(cfg: Config, name: string, g: Group, w: World, mirrorName: string, synced: bool, stamp: string): (r: (PassResult, World))
  {
    var source := SourceClusterId(cfg.clusterId, g);
    var (ok, c1) := R.AddGroup(w.remote, MirrorObject(cfg.domain, g, name, mirrorName, source));
    if !ok then (Fail, w.(events := w.events + [Warn(MirrorCreateFailed(g.spec.remoteClusterId))]))
    else
      var created := Event(Normal, ReasonUpdated, MirrorCreated(mirrorName, g.spec.remoteClusterId));
      Record(cfg, name, g, w.(remote := c1, events := w.events + [created]), mirrorName, synced, stamp)
  }

  /** The mirror found under the computed name was made for this group:
      same source, driver and protection groups. */
  predicate Matches(m: Group, g: Group, source: string)
  {
    m.spec.remoteClusterId == source && m.spec.driverName == g.spec.driverName
    && m.spec.protectionGroupId == g.spec.remoteProtectionGroupId
    && m.spec.remoteProtectionGroupId == g.spec.protectionGroupId
  }

  /** The create/verify step for a group that is not being deleted. */
  function Verify(cfg: Config, name: string, g: Group, w: World, stamp: string): (r: (PassResult, World))
  {
    var synced := Annotation(g, RGSyncCompleteKey) == "yes";
    var mirrorName := MirrorName(name, g);
    var source := SourceClusterId(cfg.clusterId, g);
    match R.GroupAt(w.remote, mirrorName)
    case Failed => (Fail, w)
    case NotFound =>
      if synced then (Done, w)
      else if Contains(mirrorName, "replicated-replicated") then Record(cfg, name, g, w, mirrorName, false, stamp)
      else CreateMirror(cfg, name, g, w, mirrorName, false, stamp)
    case Found(m) =>
      if m.spec.remoteClusterId == source && m.spec.driverName == g.spec.driverName then
        if Matches(m, g, source) then Record(cfg, name, g, w, mirrorName, synced, stamp)
        else (Done, w.(events := w.events + [Warn(ConflictingMirror(g.spec.remoteClusterId))]))
      else CreateMirror(cfg, name, g, w, QualifiedName(source, name), false, stamp)
  }

  /** The steps every group that gets past deletion handling goes through:
      guard the group with the finalizer, act on a deletion request, then
      create or verify the mirror. */
  function Active(cfg: Config, name: string, g: Group, w: World, stamp: string): (r: (PassResult, World))
  {
    if RGFinalizer !in g.finalizers then
      var (ok, l1) := L.ReplaceGroup(w.local, g.(finalizers := g.finalizers + {RGFinalizer}));
      (Outcome(ok), w.(local := l1))
    else if HasAnnotation(g, DeletionRequestedKey) then
      var (ok, l1) := L.MarkDeleted(w.local, g.name);
      (Outcome(ok), w.(local := l1))
    else Verify(cfg, name, g, w, stamp)
  }

  /** What the deletion handshake with the mirror decides: go on and release
      the group, or end the pass with a result. */
  datatype Handshake = Proceed | Stop(result: PassResult, remote: R.Remote)

  function DeletionHandshake(g: Group, c: R.Remote): Handshake
  {
    if HasAnnotation(g, DeletionRequestedKey) then Proceed
    else match R.GroupAt(c, Annotation(g, RemoteReplicationGroupKey))
      case Failed => Stop(Fail, c)
      case NotFound => Proceed
      case Found(m) =>
        if !DeletesMirror(RetentionPolicy(g)) then Proceed
        else if HasAnnotation(m, DeletionRequestedKey) then Stop(Requeue, c)
        else
          var (ok, c1) := R.ReplaceGroup(c, AddAnnotation(m, DeletionRequestedKey, "yes"));
          if ok then Stop(RequeueAfter(1), c1) else Stop(Fail, c)
  }

  /** A group whose deletion timestamp is set. */
  function Deletion(cfg: Config, name: string, g: Group, w: World, stamp: string): (r: (PassResult, World))
  {
    match DeletionHandshake(g, w.remote)
    case Stop(result, c1) => (result, w.(remote := c1))
    case Proceed =>
      if RGFinalizer in g.finalizers then
        var (ok, l1) := L.ReplaceGroup(w.local, g.(finalizers := g.finalizers - {RGFinalizer}));
        (Outcome(ok), w.(local := l1))
      else Active(cfg, name, g, w, stamp)
  }

  /** One pass of Reconcile for the group `name`, with `stamp` the clock
      reading used to name snapshot contents. */
  function Reconcile(cfg: Config, name: string, w: World, stamp: string): (r: (PassResult, World))
  {
    match L.GroupAt(w.local, name)
    case Failed => (Fail, w)
    case NotFound => (Done, w)
    case Found(g) =>
      if g.annotations.None? then (Done, w)
      else if !R.Connects(w.remote, g.spec.remoteClusterId) then (Fail, w)
      else if g.deleting then Deletion(cfg, name, g, w, stamp)
      else Active(cfg, name, g, w, stamp)
  }
}
