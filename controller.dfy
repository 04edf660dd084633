/** ReplicationGroupReconciler: the controller object, holding the local
    store it reads and updates through its embedded client and the events
    it records, with the methods of dellcsireplicationgroup_controller.go.
    Each method is proved to compute the function of module Workflow that
    specifies it. */
module Controller {
  import opened Types
  import opened Strings
  import opened Mirror
  import opened Objects
  import opened Workflow
  import L = LocalStore
  import R = RemoteCluster

  /** CreateNamespace: creates the namespace on the remote cluster; fails
      when the request fails, including when the namespace already exists. */
  method CreateNamespace(namespace: string, remote: R.RemoteClusterClient) returns (ok: bool)
    modifies remote
    ensures ok <==> Request(Create, Namespaces, namespace) !in old(remote.cluster).faults
                    && namespace !in old(remote.cluster).namespaces
    ensures remote.cluster == if ok then old(remote.cluster).(namespaces := old(remote.cluster).namespaces + {namespace})
                              else old(remote.cluster)
  {
    ok := remote.CreateNamespace(namespace);
  }

  class ReplicationGroupReconciler {
    const clusterId: string
    const domain: string
    const decode: string -> Option<ActionAnnotation>

    /** The local cluster as the embedded client sees it. */
    var store: L.Local
    /** The events recorded so far. */
    var events: seq<Event>

    function Cfg(): Config
    {
      Config(clusterId, domain, decode)
    }

    function State(remote: R.RemoteClusterClient): World
      reads this, remote
    {
      World(store, remote.cluster, events)
    }

    constructor (cfg: Config, l: L.Local)
      ensures clusterId == cfg.clusterId && domain == cfg.domain && decode == cfg.decode
      ensures store == l && events == []
    {
      clusterId, domain, decode := cfg.clusterId, cfg.domain, cfg.decode;
      store := l;
      events := [];
    }

    // The embedded client of the local cluster and the event recorder.

    method Get(name: string) returns (r: Lookup<Group>)
      ensures r == L.GroupAt(store, name)
    {
      if Request(Verb.Get, ReplicationGroups, name) in store.faults {
        r := Failed;
      } else if name in store.groups {
        r := Found(store.groups[name]);
      } else {
        r := NotFound;
      }
    }

    method Update(g: Group) returns (ok: bool)
      modifies this
      ensures (ok, store) == L.ReplaceGroup(old(store), g)
      ensures events == old(events)
    {
      ok := Request(Verb.Update, ReplicationGroups, g.name) !in store.faults && g.name in store.groups;
      if ok && store.groups[g.name].deleting && !(g.finalizers <= store.groups[g.name].finalizers) {
        ok := false;
      }
      if ok {
        if g.deleting && g.finalizers == {} {
          store := store.(groups := store.groups - {g.name});
        } else {
          store := store.(groups := store.groups[g.name := g]);
        }
      }
    }

    method Delete(name: string) returns (ok: bool)
      modifies this
      ensures (ok, store) == L.MarkDeleted(old(store), name)
      ensures events == old(events)
    {
      ok := Request(Verb.Delete, ReplicationGroups, name) !in store.faults && name in store.groups;
      if ok {
        if store.groups[name].finalizers != {} {
          store := store.(groups := store.groups[name := store.groups[name].(deleting := true)]);
        } else {
          store := store.(groups := store.groups - {name});
        }
      }
    }

    method ListClaims(group: string) returns (r: Option<seq<Claim>>)
      ensures r == L.ClaimsOf(store, group)
    {
      if Request(List, Claims, group) in store.faults {
        r := None;
      } else {
        r := Some(L.Labelled(store.claims, group));
      }
    }

    method GetVolume(name: string) returns (r: Lookup<Volume>)
      ensures r == L.VolumeAt(store, name)
    {
      if Request(Verb.Get, Volumes, name) in store.faults {
        r := Failed;
      } else if name in store.volumes {
        r := Found(store.volumes[name]);
      } else {
        r := NotFound;
      }
    }

    method Eventf(e: Event)
      modifies this
      ensures events == old(events) + [e] && store == old(store)
    {
      events := events + [e];
    }

    // The reconciler proper.

    /** Reconcile: one pass for the group `name` against the remote cluster
        reached through `remote`; `stamp` is the clock reading of the pass. */
    method Reconcile(name: string, remote: R.RemoteClusterClient, stamp: string) returns (result: PassResult)
      modifies this, remote
      ensures (result, State(remote)) == Workflow.Reconcile(Cfg(), name, old(State(remote)), stamp)
    {
      var got := Get(name);
      if !got.Found? {
        return if got.NotFound? then Done else Fail;
      }
      var localRG := got.value;
      if localRG.annotations.None? {
        return Done;
      }
      var remoteRGName, rgSyncComplete, remoteRG := BuildMirror(name, localRG);
      var remoteClusterID := localRG.spec.remoteClusterId;

      var connected := remote.GetConnection(remoteClusterID);
      if !connected {
        return Fail;
      }

      var retentionPolicy := if HasAnnotation(localRG, RemoteRGRetentionPolicyKey)
        then Annotation(localRG, RemoteRGRetentionPolicyKey) else RetentionRetain;

      if localRG.deleting {
        if !HasAnnotation(localRG, DeletionRequestedKey) {
          var mirror := remote.GetReplicationGroup(Annotation(localRG, RemoteReplicationGroupKey));
          if mirror.Failed? {
            return Fail;
          }
          if mirror.Found? && ToLower(retentionPolicy) == RetentionDelete {
            if !HasAnnotation(mirror.value, DeletionRequestedKey) {
              var ok := remote.UpdateReplicationGroup(AddAnnotation(mirror.value, DeletionRequestedKey, "yes"));
              return if ok then RequeueAfter(1) else Fail;
            }
            return Requeue;
          }
        }
        if RGFinalizer in localRG.finalizers {
          localRG := localRG.(finalizers := localRG.finalizers - {RGFinalizer});
          var ok := Update(localRG);
          return Outcome(ok);
        }
      }

      var rgCopy := localRG;
      if RGFinalizer !in rgCopy.finalizers {
        rgCopy := rgCopy.(finalizers := rgCopy.finalizers + {RGFinalizer});
        var ok := Update(rgCopy);
        return Outcome(ok);
      }
      if HasAnnotation(rgCopy, DeletionRequestedKey) {
        var ok := Delete(rgCopy.name);
        return Outcome(ok);
      }

      result := VerifyRemote(name, localRG, remoteRG, remote, stamp);
    }

    /** The first part of Reconcile: the name the mirror is looked up under,
        whether mirroring already completed, and the mirror object to create,
        with the driver-specific labels projected onto it. */
    method BuildMirror(name: string, localRG: Group) returns (remoteRGName: string, rgSyncComplete: bool, remoteRG: Group)
      ensures remoteRGName == MirrorName(name, localRG)
      ensures rgSyncComplete <==> Annotation(localRG, RGSyncCompleteKey) == "yes"
      ensures remoteRG == MirrorObject(domain, localRG, name, remoteRGName, SourceClusterId(clusterId, localRG))
    {
      var localRGName := name;
      remoteRGName := Annotation(localRG, RemoteReplicationGroupKey);
      if remoteRGName == "" {
        remoteRGName := localRGName;
      }
      rgSyncComplete := false;
      if Annotation(localRG, RGSyncCompleteKey) == "yes" {
        remoteRGName := Annotation(localRG, RemoteReplicationGroupKey);
        rgSyncComplete := true;
      }

      var localClusterID := clusterId;
      var remoteClusterID := localRG.spec.remoteClusterId;
      if remoteClusterID == Self {
        localClusterID := Self;
        if !HasPrefix(localRGName, Replicated) {
          remoteRGName := Replicated + "-" + localRGName;
        }
      }

      var labels := map[DriverNameKey := Label(localRG, DriverNameKey), RemoteClusterIdKey := localClusterID];
      var contextPrefix := Annotation(localRG, ContextPrefixKey);
      if contextPrefix != "" {
        labels := ApplyDriverLabels(labels, localRG.spec.remoteProtectionGroupAttributes, contextPrefix, domain);
      }
      remoteRG := Group(
        name := remoteRGName,
        annotations := Some(map[
          RemoteReplicationGroupKey := localRGName,
          RemoteRGRetentionPolicyKey := Annotation(localRG, RemoteRGRetentionPolicyKey),
          RemoteClusterIdKey := localClusterID]),
        labels := labels,
        finalizers := {},
        deleting := false,
        spec := MirrorSpec(localRG.spec, localClusterID),
        status := EmptyStatus);
    }

    /** The create/verify step of Reconcile and what follows it: find the
        mirror under its computed name, create it (renamed when the one found
        belongs to another source or driver), then record it or process the
        last action. `remoteRG` is the mirror Reconcile built. */
    method VerifyRemote(name: string, localRG: Group, remoteRG: Group, remote: R.RemoteClusterClient, stamp: string)
      returns (result: PassResult)
      requires remoteRG == MirrorObject(domain, localRG, name, MirrorName(name, localRG), SourceClusterId(clusterId, localRG))
      modifies this, remote
      ensures (result, State(remote)) == Verify(Cfg(), name, localRG, old(State(remote)), stamp)
    {
      var localRGName := name;
      var remoteRGName := remoteRG.name;
      var rgSyncComplete := Annotation(localRG, RGSyncCompleteKey) == "yes";
      var localClusterID := remoteRG.spec.remoteClusterId;
      var remoteClusterID := localRG.spec.remoteClusterId;
      var remoteRG := remoteRG;

      var createRG := false;
      var rgObj := remote.GetReplicationGroup(remoteRGName);
      if rgObj.Failed? {
        return Fail;
      } else if rgObj.NotFound? {
        if rgSyncComplete {
          return Done;
        }
        // Guards against mirroring a mirror within one cluster.
        createRG := !Contains(remoteRGName, "replicated-replicated");
      } else if rgObj.value.spec.remoteClusterId == localClusterID {
        if rgObj.value.spec.driverName != remoteRG.spec.driverName {
          remoteRGName := QualifiedName(localClusterID, localRGName);
          remoteRG := remoteRG.(name := remoteRGName);
          createRG := true;
          rgSyncComplete := false;
        } else if rgObj.value.spec.protectionGroupId != remoteRG.spec.protectionGroupId
               || rgObj.value.spec.remoteProtectionGroupId != remoteRG.spec.remoteProtectionGroupId {
          Eventf(Warn(ConflictingMirror(remoteClusterID)));
          return Done;
        }
      } else {
        remoteRGName := QualifiedName(localClusterID, localRGName);
        remoteRG := remoteRG.(name := remoteRGName);
        createRG := true;
        rgSyncComplete := false;
      }

      if createRG {
        var ok := remote.CreateReplicationGroup(remoteRG);
        if !ok {
          Eventf(Warn(MirrorCreateFailed(remoteClusterID)));
          return Fail;
        }
        Eventf(Event(Normal, ReasonUpdated, MirrorCreated(remoteRGName, remoteClusterID)));
      }

      result := RecordRemote(name, localRG, remoteRGName, rgSyncComplete, remote, stamp);
    }

    /** The end of Reconcile: record the mirror's name on the local group
        when it is not yet synced, otherwise process the last action and
        report its failure as an event. */
    method RecordRemote(name: string, localRG: Group, remoteRGName: string, rgSyncComplete: bool,
                        remote: R.RemoteClusterClient, stamp: string) returns (result: PassResult)
      modifies this, remote
      ensures (result, State(remote)) == Record(Cfg(), name, localRG, old(State(remote)), remoteRGName, rgSyncComplete, stamp)
    {
      var localRG := localRG;
      var remoteRGName := remoteRGName;
      if !rgSyncComplete {
        if Contains(name, Replicated) {
          remoteRGName := TrimPrefix(name, Replicated + "-");
        }
        localRG := AddAnnotation(localRG, RemoteReplicationGroupKey, remoteRGName);
        localRG := AddAnnotation(localRG, RGSyncCompleteKey, "yes");
        var ok := Update(localRG);
        return Outcome(ok);
      }

      var ok := ProcessLastActionResult(localRG, remote, stamp);
      if !ok {
        Eventf(Warn(LastActionFailed(localRG.status.lastAction.condition)));
      }
      return Done;
    }

    /** getPVCInformation: the first claim labelled with the group whose
        volume carries `volumeHandle`. */
    method GetPVCInformation(group: Group, volumeHandle: string) returns (r: Lookup<Claim>)
      ensures r == FindClaim(store, group.name, volumeHandle)
    {
      var list := ListClaims(group.name);
      if list.None? {
        return Failed;
      }
      var items := list.value;
      var i := 0;
      while i < |items|
        invariant 0 <= i <= |items|
        invariant ScanClaims(store, items[i..], volumeHandle) == ScanClaims(store, items, volumeHandle)
      {
        var pv := GetVolume(items[i].spec.volumeName);
        if !pv.Found? {
          return Failed;
        }
        if pv.value.volumeHandle == volumeHandle {
          return Found(items[i]);
        }
        assert items[i..][1..] == items[i + 1..];
        i := i + 1;
      }
      return NotFound;
    }

    /** processSnapshotEvent: adopts the array snapshots of the last action
        on the remote cluster. */
    method ProcessSnapshotEvent(group: Group, remote: R.RemoteClusterClient, stamp: string) returns (ok: bool)
      modifies remote
      ensures (ok, remote.cluster) == SnapshotEvent(Cfg(), store, group, old(remote.cluster), stamp)
    {
      if !HasAnnotation(group, ActionKey) {
        return true;
      }
      var action := decode(Annotation(group, ActionKey));
      if action.None? {
        return false;
      }
      var namespace := action.value.snapshotNamespace;
      var existing := remote.GetNamespace(namespace);
      if !existing.Found? {
        ok := CreateNamespace(namespace, remote);
        if !ok {
          return;
        }
      }

      var snClass := Annotation(group, SnapshotClassKey);
      var driverClass := Label(group, DriverNameKey);
      if snClass == "" {
        snClass := DefaultSnapshotClassName(driverClass);
      } else {
        var named := remote.GetSnapshotClass(snClass);
        if !named.Found? {
          return false;
        }
      }

      var storageClass := Annotation(group, StorageClassKey(domain));
      var createPvc := Annotation(group, CreateClaimsKey(domain));
      var shouldCreatePvc := ShouldCreatePvc(createPvc, storageClass);

      var found := remote.GetSnapshotClass(snClass);
      var sc: SnapshotClass;
      if found.Failed? {
        return false;
      } else if found.NotFound? {
        sc := MakeSnapshotClassRef(driverClass, snClass);
        ok := remote.CreateSnapshotClass(sc);
        if !ok {
          return;
        }
      } else {
        sc := found.value;
      }

      var plan := Plan(group.name, sc, shouldCreatePvc, storageClass, stamp);
      ok := AdoptSnapshots(group, plan, group.status.lastAction.attributes, namespace, remote);
    }

    /** processLastActionResult: acts on a completed action that has not
        been processed yet and records it as processed, whatever the outcome. */
    method ProcessLastActionResult(group: Group, remote: R.RemoteClusterClient, stamp: string) returns (ok: bool)
      modifies this, remote
      ensures (ok, store, remote.cluster) == ProcessLastAction(Cfg(), old(store), group, old(remote.cluster), stamp)
      ensures events == old(events)
    {
      var lastAction := group.status.lastAction;
      if |group.status.conditions| == 0 || lastAction.time.None? {
        return true;
      }
      if lastAction.errorMessage != "" {
        return false;
      }
      if !HasAnnotation(group, ActionProcessedTimeKey) {
        return true;
      }
      if Annotation(group, ActionProcessedTimeKey) == lastAction.time.value {
        return true;
      }
      ok := true;
      if Contains(lastAction.condition, "CREATE_SNAPSHOT") {
        ok := ProcessSnapshotEvent(group, remote, stamp);
      }
      // The outcome of recording the action is deliberately ignored.
      var _ := Update(AddAnnotation(group, ActionProcessedTimeKey, lastAction.time.value));
    }

    /** The loop of processSnapshotEvent over the last action's (volume
        handle, snapshot handle) pairs, in the order the map is visited. */
    method AdoptSnapshots(group: Group, plan: Plan, pairs: seq<(string, string)>, namespace: string,
                          remote: R.RemoteClusterClient) returns (ok: bool)
      requires plan.group == group.name
      modifies remote
      ensures var r := Pairs(store, plan, pairs, namespace, old(remote.cluster));
        ok == r.0 && remote.cluster == r.2
    {
      var namespace := namespace;
      var sc, shouldCreatePvc, storageClass, stamp := plan.snapshotClass, plan.createClaims, plan.storageClass, plan.stamp;
      ghost var l := store;
      ghost var goal := Pairs(l, plan, pairs, namespace, remote.cluster);
      var i := 0;
      assert pairs[i..] == pairs;
      while i < |pairs|
        invariant 0 <= i <= |pairs|
        invariant Pairs(l, plan, pairs[i..], namespace, remote.cluster) == goal
      {
        ghost var step := PairStep(l, plan, pairs[i], namespace, remote.cluster);
        assert Pairs(l, plan, pairs[i..], namespace, remote.cluster) ==
          if !step.0 then (false, step.1, step.2) else Pairs(l, plan, pairs[i + 1..], step.1, step.2) by {
          assert pairs[i..][0] == pairs[i] && pairs[i..][1..] == pairs[i + 1..];
        }
        var (volumeHandle, snapshotHandle) := pairs[i];
        var pvc: Lookup<Claim> := NotFound;
        if shouldCreatePvc {
          pvc := GetPVCInformation(group, volumeHandle);
          if pvc.Found? && pvc.value.namespace == namespace {
            namespace := "cloned-" + namespace;
            ok := CreateNamespace(namespace, remote);
            if !ok {
              assert ok == goal.0 && remote.cluster == goal.2;
              return;
            }
          }
        }
        assert pvc == PairClaim(l, plan, volumeHandle) && namespace == step.1;
        ghost var adopted := Adopt(plan, pairs[i], namespace, pvc, remote.cluster);
        assert step == (adopted.0, namespace, adopted.1);

        var snapRef := MakeSnapReference(snapshotHandle, namespace);
        var snapContent := MakeVolSnapContent(snapshotHandle, volumeHandle, snapRef, sc, stamp);
        ok := remote.CreateSnapshotContent(snapContent);
        if !ok {
          assert ok == goal.0 && remote.cluster == goal.2;
          return;
        }
        var snapshot := MakeSnapshotObject(snapRef.name, snapContent.name, sc.name, namespace);
        ok := remote.CreateSnapshotObject(snapshot);
        if !ok {
          assert ok == goal.0 && remote.cluster == goal.2;
          return;
        }

        assert adopted == if !pvc.Found? || SkipsClaim(remote.cluster, storageClass) then (true, remote.cluster)
          else R.AddClaim(remote.cluster, MakeClaimFromSnapshot(pvc.value.name, namespace, snapRef.name, storageClass, pvc.value.spec));
        if shouldCreatePvc && pvc.Found? {
          // A storage class with replication enabled gets snapshots but no claims.
          var target := remote.GetStorageClass(storageClass);
          if !(target.Found? && StorageClassReplicationParam in target.value.parameters
               && target.value.parameters[StorageClassReplicationParam] == "true") {
            var newPvc := MakeClaimFromSnapshot(pvc.value.name, namespace, snapContent.snapshotRef.name, storageClass, pvc.value.spec);
            ok := remote.CreatePersistentVolumeClaim(newPvc);
            if !ok {
              assert ok == goal.0 && remote.cluster == goal.2;
              return;
            }
          }
        }
        assert step == (true, namespace, remote.cluster);
        i := i + 1;
      }
      return true;
    }
  }
}
