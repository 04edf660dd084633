/** Properties of one reconcile pass, and of two passes in a row, stated
    about the specification in module Workflow that the controller is proved
    to compute. */
module ReconcileProperties {
  import opened Types
  import opened Strings
  import opened Mirror
  import opened Workflow
  import SnapshotProperties
  import L = LocalStore
  import R = RemoteCluster

  /** The API server keys every replication group by its own name. */
  predicate LocalWellNamed(l: L.Local)
  {
    forall n | n in l.groups :: l.groups[n].name == n
  }

  predicate RemoteWellNamed(c: R.Remote)
  {
    forall n | n in c.groups :: c.groups[n].name == n
  }

  /** The pass read the group `g`, found its annotations and connected to
      its remote cluster: everything before the deletion check succeeded. */
  predicate Reached(cfg: Config, name: string, w: World, g: Group)
  {
    L.GroupAt(w.local, name) == Found(g) && g.annotations.Some? && R.Connects(w.remote, g.spec.remoteClusterId)
  }

  // ---------------------------------------------------------------------
  // The start of a pass

  /** A group that is gone ends the pass quietly; one that cannot be read
      ends it with an error; in both cases nothing changes. */
  lemma MissingGroupIgnored(cfg: Config, name: string, w: World, stamp: string)
    ensures L.GroupAt(w.local, name) == NotFound ==> Reconcile(cfg, name, w, stamp) == (Done, w)
    ensures L.GroupAt(w.local, name) == Failed ==> Reconcile(cfg, name, w, stamp) == (Fail, w)
  {
  }

  /** A pass changes something only once it has reached the group. */
  lemma UnreachedChangesNothing(cfg: Config, name: string, w: World, stamp: string)
    requires forall g :: !Reached(cfg, name, w, g)
    ensures Reconcile(cfg, name, w, stamp).1 == w
    ensures Reconcile(cfg, name, w, stamp).0 in {Done, Fail}
  {
    if L.GroupAt(w.local, name).Found? {
      assert !Reached(cfg, name, w, L.GroupAt(w.local, name).value);
    }
  }

  // ---------------------------------------------------------------------
  // Deletion

  /** Releasing the group is safe: the mirror was already asked to go, is
      gone, or is to be retained. */
  predicate SafeToRelease(g: Group, c: R.Remote)
  {
    HasAnnotation(g, DeletionRequestedKey)
    || R.GroupAt(c, Annotation(g, RemoteReplicationGroupKey)) == NotFound
    || (R.GroupAt(c, Annotation(g, RemoteReplicationGroupKey)).Found? && !DeletesMirror(RetentionPolicy(g)))
  }

  /** A deleting group whose mirror is to be deleted and has not been asked
      yet: the mirror is marked, and the pass asks to be run again shortly;
      nothing local changes. */
  lemma HandshakeRequestsDeletion(cfg: Config, name: string, w: World, g: Group, m: Group, stamp: string)
    requires RemoteWellNamed(w.remote)
    requires Reached(cfg, name, w, g) && g.deleting && !HasAnnotation(g, DeletionRequestedKey)
    requires R.GroupAt(w.remote, Annotation(g, RemoteReplicationGroupKey)) == Found(m)
    requires DeletesMirror(RetentionPolicy(g)) && !HasAnnotation(m, DeletionRequestedKey)
    requires Request(Update, ReplicationGroups, m.name) !in w.remote.faults
    ensures var marked := AddAnnotation(m, DeletionRequestedKey, "yes");
      Reconcile(cfg, name, w, stamp)
        == (RequeueAfter(1), w.(remote := w.remote.(groups := w.remote.groups[m.name := marked])))
  {
  }

  /** Once the mirror has been asked to go, the group waits for it. */
  lemma HandshakeAwaitsMirror(cfg: Config, name: string, w: World, g: Group, m: Group, stamp: string)
    requires Reached(cfg, name, w, g) && g.deleting && !HasAnnotation(g, DeletionRequestedKey)
    requires R.GroupAt(w.remote, Annotation(g, RemoteReplicationGroupKey)) == Found(m)
    requires DeletesMirror(RetentionPolicy(g)) && HasAnnotation(m, DeletionRequestedKey)
    ensures Reconcile(cfg, name, w, stamp) == (Requeue, w)
  {
  }

  /** The finalizer of a deleting group is removed only when that is safe,
      and then nothing else happens in the pass. */
  lemma ReleasedOnlyWhenSafe(cfg: Config, name: string, w: World, g: Group, stamp: string)
    requires Reached(cfg, name, w, g) && g.deleting && RGFinalizer in g.finalizers
    ensures var r := Reconcile(cfg, name, w, stamp);
      r.1.local != w.local ==> SafeToRelease(g, w.remote)
    ensures var r := Reconcile(cfg, name, w, stamp);
      SafeToRelease(g, w.remote) ==>
        r.1 == w.(local := L.ReplaceGroup(w.local, g.(finalizers := g.finalizers - {RGFinalizer})).1)
  {
  }

  /** A deleting group that has lost its finalizer falls through to the step
      that adds the finalizer, which the API server refuses for an object
      being deleted: the pass fails and changes nothing. */
  lemma LostFinalizerNotRestored(cfg: Config, name: string, w: World, g: Group, stamp: string)
    requires LocalWellNamed(w.local)
    requires Reached(cfg, name, w, g) && g.deleting && RGFinalizer !in g.finalizers
    requires SafeToRelease(g, w.remote)
    ensures Reconcile(cfg, name, w, stamp) == (Fail, w)
  {
  }

  /** A pass over a deleting group creates nothing and records no event; it
      changes the remote cluster only when the retention policy asks for the
      mirror's deletion. */
  lemma DeletionCreatesNothing(cfg: Config, name: string, w: World, g: Group, stamp: string)
    requires Reached(cfg, name, w, g) && g.deleting
    ensures var r := Reconcile(cfg, name, w, stamp);
      r.1.events == w.events && r.1.remote.groups.Keys == w.remote.groups.Keys
    ensures !DeletesMirror(RetentionPolicy(g)) ==> Reconcile(cfg, name, w, stamp).1.remote == w.remote
  {
    assert Reconcile(cfg, name, w, stamp) == Deletion(cfg, name, g, w, stamp);
    DeletionStep(cfg, name, g, w, stamp);
  }

  lemma DeletionStep(cfg: Config, name: string, g: Group, w: World, stamp: string)
    ensures var w' := Deletion(cfg, name, g, w, stamp).1;
      w'.events == w.events && w'.remote.groups.Keys == w.remote.groups.Keys
      && (!DeletesMirror(RetentionPolicy(g)) ==> w'.remote == w.remote)
  {
    match DeletionHandshake(g, w.remote)
    case Stop(_, _) =>
    case Proceed =>
      if RGFinalizer !in g.finalizers {
        assert Deletion(cfg, name, g, w, stamp) == Active(cfg, name, g, w, stamp);
      }
  }

  // ---------------------------------------------------------------------
  // A group that is not being deleted

  /** The finalizer is added before anything else, and nothing else happens
      in that pass. */
  lemma FinalizerAddedFirst(cfg: Config, name: string, w: World, g: Group, stamp: string)
    requires LocalWellNamed(w.local)
    requires Reached(cfg, name, w, g) && !g.deleting && RGFinalizer !in g.finalizers
    ensures var r := Reconcile(cfg, name, w, stamp);
      r.1.remote == w.remote && r.1.events == w.events
      && (r.0 == Done ==> L.GroupAt(r.1.local, name) == Found(g.(finalizers := g.finalizers + {RGFinalizer})))
      && (r.0 != Done ==> r == (Fail, w))
  {
  }

  /** A deletion requested by the peer (the group is a mirror whose source
      is going away) is acted on by deleting the group. */
  lemma DeletionRequestHonoured(cfg: Config, name: string, w: World, g: Group, stamp: string)
    requires LocalWellNamed(w.local)
    requires Reached(cfg, name, w, g) && !g.deleting && RGFinalizer in g.finalizers
    requires HasAnnotation(g, DeletionRequestedKey)
    ensures var r := Reconcile(cfg, name, w, stamp);
      r.1.remote == w.remote && r.1.events == w.events
      && (r.0 == Done ==> L.GroupAt(r.1.local, name) == Found(g.(deleting := true)))
      && (r.0 != Done ==> r == (Fail, w))
  {
  }

  /** The group reaches the create/verify step: not deleting, guarded by
      the finalizer, and no deletion requested. */
  predicate Guarded(cfg: Config, name: string, w: World, g: Group)
  {
    Reached(cfg, name, w, g) && !g.deleting && RGFinalizer in g.finalizers && !HasAnnotation(g, DeletionRequestedKey)
  }

  function Synced(g: Group): bool
  {
    Annotation(g, RGSyncCompleteKey) == "yes"
  }

  /** A mirror that vanished after mirroring completed is not recreated. */
  lemma VanishedMirrorNotRecreated(cfg: Config, name: string, w: World, g: Group, stamp: string)
    requires Guarded(cfg, name, w, g) && Synced(g)
    requires R.GroupAt(w.remote, MirrorName(name, g)) == NotFound
    ensures Reconcile(cfg, name, w, stamp) == (Done, w)
  {
  }

  /** Creating a mirror under `n` and recording it: refused when the name is
      taken or the create fails, with a warning and nothing else changed;
      otherwise the mirror is added, announced, and its name recorded on the
      local group, or the pass fails with the local group unchanged. */
  lemma CreateMirrorOutcome(cfg: Config, name: string, g: Group, w: World, n: string, stamp: string)
    requires LocalWellNamed(w.local) && L.GroupAt(w.local, name) == Found(g) && !g.deleting
    ensures var r := CreateMirror(cfg, name, g, w, n, false, stamp);
      if Request(Create, ReplicationGroups, n) in w.remote.faults || n in w.remote.groups then
        r == (Fail, w.(events := w.events + [Warn(MirrorCreateFailed(g.spec.remoteClusterId))]))
      else
        r.1.remote == w.remote.(groups := w.remote.groups[n := MirrorObject(cfg.domain, g, name, n, SourceClusterId(cfg.clusterId, g))])
        && r.1.events == w.events + [Event(Normal, ReasonUpdated, MirrorCreated(n, g.spec.remoteClusterId))]
        && (r.0 == Done ==> L.GroupAt(r.1.local, name) == Found(Recorded(g, name, n)))
        && (r.0 != Done ==> r.0 == Fail && r.1.local == w.local)
  {
    assert g.name == name;
  }

  /** A missing mirror of a group not yet synced is created under the
      computed name, announced by an event, and its name recorded locally
      together with the sync mark; a create that fails is reported by a
      warning, and nothing else changes. */
  lemma CreatesMissingMirror(cfg: Config, name: string, w: World, g: Group, stamp: string)
    requires LocalWellNamed(w.local)
    requires Guarded(cfg, name, w, g) && !Synced(g)
    requires R.GroupAt(w.remote, MirrorName(name, g)) == NotFound
    requires !Contains(MirrorName(name, g), "replicated-replicated")
    ensures var mirrorName := MirrorName(name, g);
      var m := MirrorObject(cfg.domain, g, name, mirrorName, SourceClusterId(cfg.clusterId, g));
      var r := Reconcile(cfg, name, w, stamp);
      if Request(Create, ReplicationGroups, mirrorName) in w.remote.faults then
        r == (Fail, w.(events := w.events + [Warn(MirrorCreateFailed(g.spec.remoteClusterId))]))
      else
        r.1.remote == w.remote.(groups := w.remote.groups[mirrorName := m])
        && r.1.events == w.events + [Event(Normal, ReasonUpdated, MirrorCreated(mirrorName, g.spec.remoteClusterId))]
        && (r.0 == Done ==> L.GroupAt(r.1.local, name) == Found(Recorded(g, name, mirrorName)))
        && (r.0 != Done ==> r.0 == Fail && r.1.local == w.local)
  {
    assert Reconcile(cfg, name, w, stamp) == CreateMirror(cfg, name, g, w, MirrorName(name, g), false, stamp);
    CreateMirrorOutcome(cfg, name, g, w, MirrorName(name, g), stamp);
  }

  /** A computed name that already mirrors a mirror is never created again:
      the pass only records it. */
  lemma RecursionGuard(cfg: Config, name: string, w: World, g: Group, stamp: string)
    requires Guarded(cfg, name, w, g) && !Synced(g)
    requires R.GroupAt(w.remote, MirrorName(name, g)) == NotFound
    requires Contains(MirrorName(name, g), "replicated-replicated")
    ensures var r := Reconcile(cfg, name, w, stamp);
      r.1 == w.(local := L.ReplaceGroup(w.local, Recorded(g, name, MirrorName(name, g))).1)
  {
  }

  /** A mirror with this group's source and driver but other protection
      groups is a conflict: reported, and nothing changes. */
  lemma ConflictingMirrorStops(cfg: Config, name: string, w: World, g: Group, m: Group, stamp: string)
    requires Guarded(cfg, name, w, g)
    requires R.GroupAt(w.remote, MirrorName(name, g)) == Found(m)
    requires m.spec.remoteClusterId == SourceClusterId(cfg.clusterId, g) && m.spec.driverName == g.spec.driverName
    requires !Matches(m, g, SourceClusterId(cfg.clusterId, g))
    ensures Reconcile(cfg, name, w, stamp)
      == (Done, w.(events := w.events + [Warn(ConflictingMirror(g.spec.remoteClusterId))]))
  {
  }

  /** A group of another source or driver found under the computed name is
      left as it is; a mirror is made under the qualified name instead,
      announced and recorded, or the failed create is reported. */
  lemma ForeignMirrorSidestepped(cfg: Config, name: string, w: World, g: Group, m: Group, stamp: string)
    requires LocalWellNamed(w.local)
    requires Guarded(cfg, name, w, g)
    requires R.GroupAt(w.remote, MirrorName(name, g)) == Found(m)
    requires !(m.spec.remoteClusterId == SourceClusterId(cfg.clusterId, g) && m.spec.driverName == g.spec.driverName)
    ensures var r := Reconcile(cfg, name, w, stamp);
      MirrorName(name, g) in r.1.remote.groups && r.1.remote.groups[MirrorName(name, g)] == m
    ensures var q := QualifiedName(SourceClusterId(cfg.clusterId, g), name);
      var r := Reconcile(cfg, name, w, stamp);
      if Request(Create, ReplicationGroups, q) in w.remote.faults || q in w.remote.groups then
        r == (Fail, w.(events := w.events + [Warn(MirrorCreateFailed(g.spec.remoteClusterId))]))
      else
        r.1.remote == w.remote.(groups := w.remote.groups[q := MirrorObject(cfg.domain, g, name, q, SourceClusterId(cfg.clusterId, g))])
        && r.1.events == w.events + [Event(Normal, ReasonUpdated, MirrorCreated(q, g.spec.remoteClusterId))]
        && (r.0 == Done ==> L.GroupAt(r.1.local, name) == Found(Recorded(g, name, q)))
        && (r.0 != Done ==> r.0 == Fail && r.1.local == w.local)
  {
    var q := QualifiedName(SourceClusterId(cfg.clusterId, g), name);
    assert Reconcile(cfg, name, w, stamp) == CreateMirror(cfg, name, g, w, q, false, stamp);
    CreateMirrorOutcome(cfg, name, g, w, q, stamp);
  }

  // ---------------------------------------------------------------------
  // processLastActionResult

  /** A failed last action makes the pass report it, and it is not recorded
      as processed. */
  lemma FailedActionNotStamped(cfg: Config, l: L.Local, g: Group, c: R.Remote, stamp: string)
    requires |g.status.conditions| != 0 && g.status.lastAction.time.Some? && g.status.lastAction.errorMessage != ""
    ensures ProcessLastAction(cfg, l, g, c, stamp) == (false, l, c)
  {
  }

  /** A group without the processed-time annotation never has its actions
      processed. */
  lemma UntrackedActionIgnored(cfg: Config, l: L.Local, g: Group, c: R.Remote, stamp: string)
    requires !HasAnnotation(g, ActionProcessedTimeKey)
    ensures var r := ProcessLastAction(cfg, l, g, c, stamp); r.1 == l && r.2 == c
  {
  }

  /** A pending action is recorded as processed whether or not its snapshot
      work succeeded. */
  lemma ActionStampedEvenOnFailure(cfg: Config, l: L.Local, g: Group, c: R.Remote, stamp: string)
    requires ActionPending(g) && L.GroupAt(l, g.name) == Found(g)
    requires Request(Update, ReplicationGroups, g.name) !in l.faults
    requires !(g.deleting && g.finalizers == {})
    ensures L.GroupAt(ProcessLastAction(cfg, l, g, c, stamp).1, g.name) == Found(Stamped(g))
  {
  }

  /** Once recorded, the same action is not processed again, whatever the
      state of either cluster. */
  lemma ActionProcessedOnce(cfg: Config, l: L.Local, g: Group, c: R.Remote, stamp: string)
    requires ActionPending(g)
    ensures !ActionPending(Stamped(g))
    ensures ProcessLastAction(cfg, l, Stamped(g), c, stamp) == (true, l, c)
  {
  }

  /** Only a snapshot action touches the remote cluster, and then it only
      adds to it. */
  lemma ActionOnlyAdds(cfg: Config, l: L.Local, g: Group, c: R.Remote, stamp: string)
    ensures var c' := ProcessLastAction(cfg, l, g, c, stamp).2;
      SnapshotProperties.Grows(c, c')
      && (!Contains(g.status.lastAction.condition, "CREATE_SNAPSHOT") ==> c' == c)
  {
    SnapshotProperties.SnapshotEventOnlyAdds(cfg, l, g, c, stamp);
  }

  /** A synced group whose mirror matches has its last action processed:
      the pass ends Done, keeps every remote group, only adds to the remote
      cluster, and reports a warning exactly when the processing failed. */
  lemma ActionFailureReported(cfg: Config, name: string, w: World, g: Group, m: Group, stamp: string)
    requires Guarded(cfg, name, w, g) && Synced(g)
    requires R.GroupAt(w.remote, MirrorName(name, g)) == Found(m)
    requires Matches(m, g, SourceClusterId(cfg.clusterId, g))
    ensures var r := Reconcile(cfg, name, w, stamp);
      var processed := ProcessLastAction(cfg, w.local, g, w.remote, stamp);
      r.0 == Done && r.1.local == processed.1
      && SnapshotProperties.Grows(w.remote, r.1.remote) && r.1.remote.groups == w.remote.groups
      && (processed.0 ==> r.1.events == w.events)
      && (!processed.0 ==> r.1.events == w.events + [Warn(LastActionFailed(g.status.lastAction.condition))])
  {
    assert Reconcile(cfg, name, w, stamp) == Record(cfg, name, g, w, MirrorName(name, g), true, stamp);
    ActionOnlyAdds(cfg, w.local, g, w.remote, stamp);
    SnapshotProperties.SnapshotEventKeepsGroups(cfg, w.local, g, w.remote, stamp);
  }

  // ---------------------------------------------------------------------
  // What every pass keeps

  lemma ReplaceKeepsNaming(l: L.Local, g: Group)
    requires LocalWellNamed(l)
    ensures LocalWellNamed(L.ReplaceGroup(l, g).1)
  {
  }

  lemma MarkDeletedKeepsNaming(l: L.Local, name: string)
    requires LocalWellNamed(l)
    ensures LocalWellNamed(L.MarkDeleted(l, name).1)
  {
  }

  /** Every write of a pass to the local store is one of the two above. */
  lemma ActionKeepsNaming(cfg: Config, l: L.Local, g: Group, c: R.Remote, stamp: string)
    requires LocalWellNamed(l)
    ensures LocalWellNamed(ProcessLastAction(cfg, l, g, c, stamp).1)
  {
    if g.status.lastAction.time.Some? {
      ReplaceKeepsNaming(l, Stamped(g));
    }
  }

  /** What a stage of a pass may do to the local store and the event log:
      keep the store keyed by name, and append at most one event. */
  predicate LocalStep(w: World, w': World)
  {
    (LocalWellNamed(w.local) ==> LocalWellNamed(w'.local))
    && |w.events| <= |w'.events| <= |w.events| + 1 && w'.events[..|w.events|] == w.events
  }

  lemma RecordStep(cfg: Config, name: string, g: Group, w: World, mirrorName: string, synced: bool, stamp: string)
    ensures LocalStep(w, Record(cfg, name, g, w, mirrorName, synced, stamp).1)
    ensures !synced ==> Record(cfg, name, g, w, mirrorName, synced, stamp).1.events == w.events
  {
    if LocalWellNamed(w.local) {
      ReplaceKeepsNaming(w.local, Recorded(g, name, mirrorName));
      ActionKeepsNaming(cfg, w.local, g, w.remote, stamp);
    }
  }

  lemma CreateMirrorStep(cfg: Config, name: string, g: Group, w: World, mirrorName: string, stamp: string)
    ensures LocalStep(w, CreateMirror(cfg, name, g, w, mirrorName, false, stamp).1)
  {
    var source := SourceClusterId(cfg.clusterId, g);
    var (ok, c1) := R.AddGroup(w.remote, MirrorObject(cfg.domain, g, name, mirrorName, source));
    if ok {
      var created := Event(Normal, ReasonUpdated, MirrorCreated(mirrorName, g.spec.remoteClusterId));
      RecordStep(cfg, name, g, w.(remote := c1, events := w.events + [created]), mirrorName, false, stamp);
    }
  }

  lemma VerifyStep(cfg: Config, name: string, g: Group, w: World, stamp: string)
    ensures LocalStep(w, Verify(cfg, name, g, w, stamp).1)
  {
    var r := Verify(cfg, name, g, w, stamp);
    var synced := Annotation(g, RGSyncCompleteKey) == "yes";
    var mirrorName := MirrorName(name, g);
    var source := SourceClusterId(cfg.clusterId, g);
    match R.GroupAt(w.remote, mirrorName)
    case Failed =>
    case NotFound =>
      if !synced {
        if Contains(mirrorName, "replicated-replicated") {
          assert r == Record(cfg, name, g, w, mirrorName, false, stamp);
          RecordStep(cfg, name, g, w, mirrorName, false, stamp);
        } else {
          assert r == CreateMirror(cfg, name, g, w, mirrorName, false, stamp);
          CreateMirrorStep(cfg, name, g, w, mirrorName, stamp);
        }
      }
    case Found(m) =>
      if m.spec.remoteClusterId == source && m.spec.driverName == g.spec.driverName {
        if Matches(m, g, source) {
          assert r == Record(cfg, name, g, w, mirrorName, synced, stamp);
          RecordStep(cfg, name, g, w, mirrorName, synced, stamp);
        }
      } else {
        assert r == CreateMirror(cfg, name, g, w, QualifiedName(source, name), false, stamp);
        CreateMirrorStep(cfg, name, g, w, QualifiedName(source, name), stamp);
      }
  }

  lemma PassStep(cfg: Config, name: string, w: World, stamp: string)
    ensures LocalStep(w, Reconcile(cfg, name, w, stamp).1)
  {
    match L.GroupAt(w.local, name)
    case Failed =>
    case NotFound =>
    case Found(g) =>
      if LocalWellNamed(w.local) {
        ReplaceKeepsNaming(w.local, g.(finalizers := g.finalizers - {RGFinalizer}));
        ReplaceKeepsNaming(w.local, g.(finalizers := g.finalizers + {RGFinalizer}));
        MarkDeletedKeepsNaming(w.local, g.name);
      }
      VerifyStep(cfg, name, g, w, stamp);
  }

  /** A pass keeps the local store keyed by group name. */
  lemma PassKeepsLocalNaming(cfg: Config, name: string, w: World, stamp: string)
    requires LocalWellNamed(w.local)
    ensures LocalWellNamed(Reconcile(cfg, name, w, stamp).1.local)
  {
    PassStep(cfg, name, w, stamp);
  }

  /** The remote groups a pass may leave: every group there before is still
      there, unchanged or marked for deletion. */
  predicate RemoteGroupsKept(c: R.Remote, c': R.Remote)
  {
    forall n | n in c.groups ::
      n in c'.groups && (c'.groups[n] == c.groups[n] || c'.groups[n] == AddAnnotation(c.groups[n], DeletionRequestedKey, "yes"))
  }

  lemma RecordKeepsGroups(cfg: Config, name: string, g: Group, w: World, mirrorName: string, synced: bool, stamp: string)
    ensures Record(cfg, name, g, w, mirrorName, synced, stamp).1.remote.groups == w.remote.groups
  {
    SnapshotProperties.SnapshotEventKeepsGroups(cfg, w.local, g, w.remote, stamp);
  }

  lemma CreateMirrorKeepsGroups(cfg: Config, name: string, g: Group, w: World, mirrorName: string, synced: bool, stamp: string)
    requires RemoteWellNamed(w.remote)
    ensures var c' := CreateMirror(cfg, name, g, w, mirrorName, synced, stamp).1.remote;
      RemoteGroupsKept(w.remote, c') && RemoteWellNamed(c')
  {
    var source := SourceClusterId(cfg.clusterId, g);
    var (ok, c1) := R.AddGroup(w.remote, MirrorObject(cfg.domain, g, name, mirrorName, source));
    if ok {
      var created := Event(Normal, ReasonUpdated, MirrorCreated(mirrorName, g.spec.remoteClusterId));
      RecordKeepsGroups(cfg, name, g, w.(remote := c1, events := w.events + [created]), mirrorName, synced, stamp);
    }
  }

  lemma SameGroupsKept(c: R.Remote, c': R.Remote)
    requires RemoteWellNamed(c) && c'.groups == c.groups
    ensures RemoteGroupsKept(c, c') && RemoteWellNamed(c')
  {
  }

  lemma VerifyKeepsGroups(cfg: Config, name: string, g: Group, w: World, stamp: string)
    requires RemoteWellNamed(w.remote)
    ensures var c' := Verify(cfg, name, g, w, stamp).1.remote;
      RemoteGroupsKept(w.remote, c') && RemoteWellNamed(c')
  {
    var r := Verify(cfg, name, g, w, stamp);
    var synced := Annotation(g, RGSyncCompleteKey) == "yes";
    var mirrorName := MirrorName(name, g);
    var source := SourceClusterId(cfg.clusterId, g);
    match R.GroupAt(w.remote, mirrorName)
    case Failed =>
      SameGroupsKept(w.remote, r.1.remote);
    case NotFound =>
      if synced {
        SameGroupsKept(w.remote, r.1.remote);
      } else if Contains(mirrorName, "replicated-replicated") {
        assert r == Record(cfg, name, g, w, mirrorName, false, stamp);
        RecordKeepsGroups(cfg, name, g, w, mirrorName, false, stamp);
        SameGroupsKept(w.remote, r.1.remote);
      } else {
        assert r == CreateMirror(cfg, name, g, w, mirrorName, false, stamp);
        CreateMirrorKeepsGroups(cfg, name, g, w, mirrorName, false, stamp);
      }
    case Found(m) =>
      if m.spec.remoteClusterId == source && m.spec.driverName == g.spec.driverName {
        if Matches(m, g, source) {
          assert r == Record(cfg, name, g, w, mirrorName, synced, stamp);
          RecordKeepsGroups(cfg, name, g, w, mirrorName, synced, stamp);
        }
        SameGroupsKept(w.remote, r.1.remote);
      } else {
        assert r == CreateMirror(cfg, name, g, w, QualifiedName(source, name), false, stamp);
        CreateMirrorKeepsGroups(cfg, name, g, w, QualifiedName(source, name), false, stamp);
      }
  }

  lemma HandshakeKeepsGroups(g: Group, c: R.Remote)
    requires RemoteWellNamed(c)
    ensures DeletionHandshake(g, c).Stop? ==>
      RemoteGroupsKept(c, DeletionHandshake(g, c).remote) && RemoteWellNamed(DeletionHandshake(g, c).remote)
  {
    var key := Annotation(g, RemoteReplicationGroupKey);
    if !HasAnnotation(g, DeletionRequestedKey) && R.GroupAt(c, key).Found? {
      var m := R.GroupAt(c, key).value;
      if DeletesMirror(RetentionPolicy(g)) && !HasAnnotation(m, DeletionRequestedKey) {
        var (ok, c1) := R.ReplaceGroup(c, AddAnnotation(m, DeletionRequestedKey, "yes"));
        if ok {
          MarkKeepsGroups(c, key);
          return;
        }
      }
    }
    SameGroupsKept(c, c);
  }

  lemma MarkKeepsGroups(c: R.Remote, key: string)
    requires RemoteWellNamed(c) && key in c.groups
    ensures var c' := c.(groups := c.groups[key := AddAnnotation(c.groups[key], DeletionRequestedKey, "yes")]);
      RemoteGroupsKept(c, c') && RemoteWellNamed(c')
  {
  }

  lemma ActiveKeepsGroups(cfg: Config, name: string, g: Group, w: World, stamp: string)
    requires RemoteWellNamed(w.remote)
    ensures var c' := Active(cfg, name, g, w, stamp).1.remote;
      RemoteGroupsKept(w.remote, c') && RemoteWellNamed(c')
  {
    if RGFinalizer in g.finalizers && !HasAnnotation(g, DeletionRequestedKey) {
      VerifyKeepsGroups(cfg, name, g, w, stamp);
    } else {
      SameGroupsKept(w.remote, w.remote);
    }
  }

  lemma DeletionKeepsGroups(cfg: Config, name: string, g: Group, w: World, stamp: string)
    requires RemoteWellNamed(w.remote)
    ensures var c' := Deletion(cfg, name, g, w, stamp).1.remote;
      RemoteGroupsKept(w.remote, c') && RemoteWellNamed(c')
  {
    match DeletionHandshake(g, w.remote)
    case Stop(_, _) =>
      HandshakeKeepsGroups(g, w.remote);
    case Proceed =>
      if RGFinalizer in g.finalizers {
        SameGroupsKept(w.remote, w.remote);
      } else {
        ActiveKeepsGroups(cfg, name, g, w, stamp);
      }
  }

  /** A pass over a group replicated to another cluster never deletes or
      rewrites a remote group: it only adds mirrors keyed by their names and
      marks mirrors for deletion. */
  lemma RemoteGroupsPreserved(cfg: Config, name: string, w: World, stamp: string)
    requires RemoteWellNamed(w.remote)
    requires L.GroupAt(w.local, name).Found? ==> L.GroupAt(w.local, name).value.spec.remoteClusterId != Self
    ensures RemoteGroupsKept(w.remote, Reconcile(cfg, name, w, stamp).1.remote)
    ensures RemoteWellNamed(Reconcile(cfg, name, w, stamp).1.remote)
  {
    match L.GroupAt(w.local, name)
    case Failed =>
      SameGroupsKept(w.remote, w.remote);
    case NotFound =>
      SameGroupsKept(w.remote, w.remote);
    case Found(g) =>
      if g.annotations.None? || !R.Connects(w.remote, g.spec.remoteClusterId) {
        SameGroupsKept(w.remote, w.remote);
      } else if g.deleting {
        DeletionKeepsGroups(cfg, name, g, w, stamp);
      } else {
        ActiveKeepsGroups(cfg, name, g, w, stamp);
      }
  }

  /** A mirror on another cluster marked for deletion stays marked. */
  lemma DeletionRequestSticky(cfg: Config, name: string, w: World, stamp: string, n: string)
    requires RemoteWellNamed(w.remote)
    requires L.GroupAt(w.local, name).Found? ==> L.GroupAt(w.local, name).value.spec.remoteClusterId != Self
    requires n in w.remote.groups && HasAnnotation(w.remote.groups[n], DeletionRequestedKey)
    ensures var c' := Reconcile(cfg, name, w, stamp).1.remote;
      n in c'.groups && HasAnnotation(c'.groups[n], DeletionRequestedKey)
  {
    RemoteGroupsPreserved(cfg, name, w, stamp);
  }

  /** Events are only appended, at most one per pass. */
  lemma EventsAppendOnly(cfg: Config, name: string, w: World, stamp: string)
    ensures var events := Reconcile(cfg, name, w, stamp).1.events;
      |w.events| <= |events| <= |w.events| + 1 && events[..|w.events|] == w.events
  {
    PassStep(cfg, name, w, stamp);
  }

  // ---------------------------------------------------------------------
  // Two passes

  /** The last action needs no more work: there is none, or it succeeded
      and is not pending. */
  predicate ActionSettled(g: Group)
  {
    var la := g.status.lastAction;
    |g.status.conditions| == 0 || la.time.None? || (la.errorMessage == "" && !ActionPending(g))
  }

  lemma RecordKeysDistinct()
    ensures ActionProcessedTimeKey !in {RemoteReplicationGroupKey, RGSyncCompleteKey}
    ensures DeletionRequestedKey != RGSyncCompleteKey
  {
  }

  /** Once the pass that created the mirror has recorded it, the computed
      name leads to that mirror, whenever the name recorded is the mirror's
      or the name is computed from the group's own name alone. */
  lemma RecordedNameLeadsToMirror(name: string, g: Group)
    requires RecordedName(name, MirrorName(name, g)) == MirrorName(name, g)
             || (g.spec.remoteClusterId == Self && !HasPrefix(name, Replicated))
    ensures MirrorName(name, Recorded(g, name, MirrorName(name, g))) == MirrorName(name, g)
  {
    var mirrorName := MirrorName(name, g);
    var g1 := Recorded(g, name, mirrorName);
    assert Annotation(g1, RGSyncCompleteKey) == "yes";
    assert Annotation(g1, RemoteReplicationGroupKey) == RecordedName(name, mirrorName);
  }

  /** The recording step as written loses the mirror of a group named
      `replicated-x` on another cluster: the mirror is created under the
      group's own name, but `x` is recorded, so later passes look for `x`,
      and a deletion finds no mirror to mark and releases the group. */
  lemma PrefixedNameLosesMirror(name: string, x: string, g: Group, c: R.Remote)
    requires name == Replicated + "-" + x
    requires g.spec.remoteClusterId != Self
    requires Annotation(g, RemoteReplicationGroupKey) == "" && !Synced(g) && !HasAnnotation(g, DeletionRequestedKey)
    requires R.GroupAt(c, name).Found? && R.GroupAt(c, x) == NotFound
    ensures MirrorName(name, g) == name
    ensures x != name && MirrorName(name, Recorded(g, name, name)) == x
    ensures DeletionHandshake(Recorded(g, name, name), c) == Proceed
  {
    assert name[..|Replicated|] == Replicated;
    ContainsOwnPrefix(name, Replicated);
    assert HasPrefix(name, Replicated + "-");
    RecordKeysDistinct();
    var g1 := Recorded(g, name, name);
    assert Annotation(g1, RGSyncCompleteKey) == "yes";
    assert Annotation(g1, RemoteReplicationGroupKey) == x;
    assert !HasAnnotation(g1, DeletionRequestedKey);
  }

  /** With the intended recording, the computed name leads to the mirror just
      made for every group except one named `replicated-x` within the cluster,
      whose recorded name is the group `x` it mirrors. */
  lemma IntendedRecordLeadsToMirror(name: string, g: Group)
    ensures !(g.spec.remoteClusterId == Self && HasPrefix(name, Replicated + "-")) ==>
      MirrorName(name, IntendedRecorded(g, name, MirrorName(name, g))) == MirrorName(name, g)
    ensures g.spec.remoteClusterId == Self && HasPrefix(name, Replicated + "-") ==>
      Replicated + "-" + MirrorName(name, IntendedRecorded(g, name, MirrorName(name, g))) == name
  {
    var mirrorName := MirrorName(name, g);
    var g1 := IntendedRecorded(g, name, mirrorName);
    assert Annotation(g1, RGSyncCompleteKey) == "yes";
    assert Annotation(g1, RemoteReplicationGroupKey) == IntendedRecordedName(g, name, mirrorName);
    if HasPrefix(name, Replicated + "-") {
      assert name[..|Replicated|] == (name[..|Replicated| + 1])[..|Replicated|];
    }
  }

  /** The pass that creates and records the mirror is followed by a pass
      that changes nothing and reports nothing: the mirror it finds is the
      one just made, and its last action needs no work. */
  lemma SecondPassIsQuiet(cfg: Config, name: string, w: World, g: Group, stamp: string, stamp2: string)
    requires LocalWellNamed(w.local)
    requires Guarded(cfg, name, w, g) && !Synced(g) && ActionSettled(g)
    requires RecordedName(name, MirrorName(name, g)) == MirrorName(name, g)
             || (g.spec.remoteClusterId == Self && !HasPrefix(name, Replicated))
    requires R.GroupAt(w.remote, MirrorName(name, g)) == NotFound
    requires !Contains(MirrorName(name, g), "replicated-replicated")
    requires Reconcile(cfg, name, w, stamp).0 == Done
    ensures var w1 := Reconcile(cfg, name, w, stamp).1;
      Reconcile(cfg, name, w1, stamp2) == (Done, w1)
  {
    var mirrorName := MirrorName(name, g);
    var source := SourceClusterId(cfg.clusterId, g);
    var m := MirrorObject(cfg.domain, g, name, mirrorName, source);
    var w1 := Reconcile(cfg, name, w, stamp).1;
    CreatesMissingMirror(cfg, name, w, g, stamp);
    var g1 := Recorded(g, name, mirrorName);
    RecordKeysDistinct();
    assert Guarded(cfg, name, w1, g1);
    RecordedNameLeadsToMirror(name, g);
    assert R.GroupAt(w1.remote, MirrorName(name, g1)) == Found(m);
    assert Matches(m, g1, SourceClusterId(cfg.clusterId, g1));
    assert ActionSettled(g1);
    QuietWhenMatched(cfg, name, w1, g1, m, stamp2);
  }

  /** A synced group whose mirror matches and whose last action is settled
      has a pass that changes nothing. */
  lemma QuietWhenMatched(cfg: Config, name: string, w: World, g: Group, m: Group, stamp: string)
    requires Guarded(cfg, name, w, g) && Synced(g) && ActionSettled(g)
    requires R.GroupAt(w.remote, MirrorName(name, g)) == Found(m)
    requires Matches(m, g, SourceClusterId(cfg.clusterId, g))
    ensures Reconcile(cfg, name, w, stamp) == (Done, w)
  {
    assert ProcessLastAction(cfg, w.local, g, w.remote, stamp) == (true, w.local, w.remote);
    assert Reconcile(cfg, name, w, stamp) == Verify(cfg, name, g, w, stamp);
  }
}
