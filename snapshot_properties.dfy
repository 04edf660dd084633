/** Properties of the snapshot workflow of processSnapshotEvent and of the
    claim scan of getPVCInformation, stated about their specifications in
    module Workflow. */
module SnapshotProperties {
  import opened Types
  import opened Objects
  import opened Workflow
  import L = LocalStore
  import R = RemoteCluster

  // ---------------------------------------------------------------------
  // The claim scan

  /** The volume behind a claim can be read. */
  predicate Readable(l: L.Local, c: Claim)
  {
    L.VolumeAt(l, c.spec.volumeName).Found?
  }

  /** The scan reads every volume of `claims` and none carries the handle. */
  predicate PassesOver(l: L.Local, claims: seq<Claim>, volumeHandle: string)
  {
    forall j | 0 <= j < |claims| :: Readable(l, claims[j]) && !BacksHandle(l, claims[j], volumeHandle)
  }

  lemma PassesOverCons(l: L.Local, claims: seq<Claim>, volumeHandle: string)
    requires claims != []
    ensures PassesOver(l, claims, volumeHandle) <==>
      Readable(l, claims[0]) && !BacksHandle(l, claims[0], volumeHandle) && PassesOver(l, claims[1..], volumeHandle)
  {
    if Readable(l, claims[0]) && !BacksHandle(l, claims[0], volumeHandle) && PassesOver(l, claims[1..], volumeHandle) {
      forall j | 0 <= j < |claims| ensures Readable(l, claims[j]) && !BacksHandle(l, claims[j], volumeHandle) {
        if j > 0 {
          assert claims[j] == claims[1..][j - 1];
        }
      }
    }
  }

  /** A claim the scan returns is the first one backed by the handle, and
      every volume before it was read. */
  lemma {:induction false} ScanClaimsFindsFirst(l: L.Local, claims: seq<Claim>, volumeHandle: string)
    ensures var r := ScanClaims(l, claims, volumeHandle);
      r.Found? ==> exists i | 0 <= i < |claims| ::
        claims[i] == r.value && BacksHandle(l, claims[i], volumeHandle) && PassesOver(l, claims[..i], volumeHandle)
    decreases |claims|
  {
    var r := ScanClaims(l, claims, volumeHandle);
    if claims != [] && r.Found? {
      if BacksHandle(l, claims[0], volumeHandle) {
        assert claims[..0] == [];
        assert claims[0] == r.value;
      } else {
        assert r == ScanClaims(l, claims[1..], volumeHandle);
        ScanClaimsFindsFirst(l, claims[1..], volumeHandle);
        var i :| 0 <= i < |claims[1..]| && claims[1..][i] == r.value && BacksHandle(l, claims[1..][i], volumeHandle)
          && PassesOver(l, claims[1..][..i], volumeHandle);
        assert claims[..i + 1][1..] == claims[1..][..i];
        PassesOverCons(l, claims[..i + 1], volumeHandle);
        assert claims[i + 1] == r.value;
      }
    }
  }

  /** The scan finds nothing exactly when every volume was read and none
      carries the handle. */
  lemma {:induction false} ScanClaimsNone(l: L.Local, claims: seq<Claim>, volumeHandle: string)
    ensures ScanClaims(l, claims, volumeHandle) == NotFound <==> PassesOver(l, claims, volumeHandle)
    decreases |claims|
  {
    if claims != [] {
      ScanClaimsNone(l, claims[1..], volumeHandle);
      PassesOverCons(l, claims, volumeHandle);
    }
  }

  /** The scan fails exactly when a volume cannot be read before any claim
      backed by the handle is met. */
  lemma {:induction false} ScanClaimsFails(l: L.Local, claims: seq<Claim>, volumeHandle: string)
    ensures ScanClaims(l, claims, volumeHandle) == Failed <==>
      exists i | 0 <= i < |claims| :: !Readable(l, claims[i]) && PassesOver(l, claims[..i], volumeHandle)
    decreases |claims|
  {
    if claims != [] {
      ScanClaimsFails(l, claims[1..], volumeHandle);
      assert claims[..0] == [];
      if ScanClaims(l, claims, volumeHandle) == Failed && Readable(l, claims[0]) {
        var i :| 0 <= i < |claims[1..]| && !Readable(l, claims[1..][i]) && PassesOver(l, claims[1..][..i], volumeHandle);
        assert claims[..i + 1][1..] == claims[1..][..i];
        PassesOverCons(l, claims[..i + 1], volumeHandle);
        assert !Readable(l, claims[i + 1]);
      }
      if exists i | 0 <= i < |claims| :: !Readable(l, claims[i]) && PassesOver(l, claims[..i], volumeHandle) {
        var i :| 0 <= i < |claims| && !Readable(l, claims[i]) && PassesOver(l, claims[..i], volumeHandle);
        if i > 0 {
          PassesOverCons(l, claims[..i], volumeHandle);
          assert claims[..i][1..] == claims[1..][..i - 1];
          assert !Readable(l, claims[1..][i - 1]);
        }
      }
    }
  }

  // ---------------------------------------------------------------------
  // The loop over the pairs

  /** Running the loop over `a + b` is running it over `a` and, unless that
      failed, over `b` from where it stopped: a failure aborts the rest. */
  lemma {:induction false} PairsSplit(l: L.Local, p: Plan, a: seq<(string, string)>, b: seq<(string, string)>,
                                      ns: string, c: R.Remote)
    ensures var first := Pairs(l, p, a, ns, c);
      Pairs(l, p, a + b, ns, c) == if !first.0 then first else Pairs(l, p, b, first.1, first.2)
    decreases |a|
  {
    if a == [] {
      assert a + b == b;
    } else {
      assert (a + b)[0] == a[0] && (a + b)[1..] == a[1..] + b;
      var step := PairStep(l, p, a[0], ns, c);
      if step.0 {
        PairsSplit(l, p, a[1..], b, step.1, step.2);
      }
    }
  }

  /** What the loop may do to the remote cluster: add namespaces, contents,
      snapshots and claims, and nothing else; nothing it finds is changed. */
  predicate OnlyAdds(c: R.Remote, c': R.Remote)
  {
    c'.groups == c.groups && c'.snapshotClasses == c.snapshotClasses
    && c'.storageClasses == c.storageClasses && c'.faults == c.faults
    && c.namespaces <= c'.namespaces
    && (forall k | k in c.contents :: k in c'.contents && c'.contents[k] == c.contents[k])
    && (forall k | k in c.snapshots :: k in c'.snapshots && c'.snapshots[k] == c.snapshots[k])
    && (forall k | k in c.claims :: k in c'.claims && c'.claims[k] == c.claims[k])
  }

  lemma OnlyAddsTransitive(c1: R.Remote, c2: R.Remote, c3: R.Remote)
    requires OnlyAdds(c1, c2) && OnlyAdds(c2, c3)
    ensures OnlyAdds(c1, c3)
  {
  }

  lemma AddNamespaceOnlyAdds(c: R.Remote, ns: string)
    ensures OnlyAdds(c, R.AddNamespace(c, ns).1)
  {
  }

  lemma AddContentOnlyAdds(c: R.Remote, content: SnapshotContent)
    ensures OnlyAdds(c, R.AddSnapshotContent(c, content).1)
  {
  }

  lemma AddSnapshotOnlyAdds(c: R.Remote, s: VolumeSnapshot)
    ensures OnlyAdds(c, R.AddSnapshot(c, s).1)
  {
  }

  lemma AddClaimOnlyAdds(c: R.Remote, claim: Claim)
    ensures OnlyAdds(c, R.AddClaim(c, claim).1)
  {
  }

  lemma AdoptOnlyAdds(p: Plan, pair: (string, string), ns: string, claim: Lookup<Claim>, c: R.Remote)
    ensures OnlyAdds(c, Adopt(p, pair, ns, claim, c).1)
  {
    var ref := MakeSnapReference(pair.1, ns);
    var content := MakeVolSnapContent(pair.1, pair.0, ref, p.snapshotClass, p.stamp);
    var c2 := R.AddSnapshotContent(c, content).1;
    AddContentOnlyAdds(c, content);
    var s := MakeSnapshotObject(ref.name, content.name, p.snapshotClass.name, ns);
    var c3 := R.AddSnapshot(c2, s).1;
    AddSnapshotOnlyAdds(c2, s);
    OnlyAddsTransitive(c, c2, c3);
    if claim.Found? {
      var restored := MakeClaimFromSnapshot(claim.value.name, ns, ref.name, p.storageClass, claim.value.spec);
      AddClaimOnlyAdds(c3, restored);
      OnlyAddsTransitive(c, c3, R.AddClaim(c3, restored).1);
    }
  }

  lemma PairStepOnlyAdds(l: L.Local, p: Plan, pair: (string, string), ns: string, c: R.Remote)
    ensures OnlyAdds(c, PairStep(l, p, pair, ns, c).2)
  {
    var claim := PairClaim(l, p, pair.0);
    var ns1 := if Clones(claim, ns) then "cloned-" + ns else ns;
    var c1 := if Clones(claim, ns) then R.AddNamespace(c, ns1).1 else c;
    AddNamespaceOnlyAdds(c, ns1);
    AdoptOnlyAdds(p, pair, ns1, claim, c1);
    OnlyAddsTransitive(c, c1, Adopt(p, pair, ns1, claim, c1).1);
  }

  /** The loop only ever adds objects to the remote cluster. */
  lemma {:induction false} PairsOnlyAdd(l: L.Local, p: Plan, pairs: seq<(string, string)>, ns: string, c: R.Remote)
    ensures OnlyAdds(c, Pairs(l, p, pairs, ns, c).2)
    decreases |pairs|
  {
    if pairs != [] {
      var step := PairStep(l, p, pairs[0], ns, c);
      PairStepOnlyAdds(l, p, pairs[0], ns, c);
      if step.0 {
        PairsOnlyAdd(l, p, pairs[1..], step.1, step.2);
        OnlyAddsTransitive(c, step.2, Pairs(l, p, pairs[1..], step.1, step.2).2);
      }
    }
  }

  /** The snapshot `snapshotHandle` of the volume `volumeHandle` is adopted
      with the class `sc`: a content for it names the class and refers to a
      snapshot object, and that snapshot object exists, in the namespace the
      reference gives, bound to the content and the class. */
  predicate Adopted(c: R.Remote, sc: SnapshotClass, stamp: string, volumeHandle: string, snapshotHandle: string)
  {
    var name := ContentName(volumeHandle, stamp);
    name in c.contents
    && (var content := c.contents[name];
        content.snapshotHandle == snapshotHandle && content.snapshotRef.name == SnapshotName(snapshotHandle)
        && content.className == sc.name && content.driver == sc.driver && content.deletionPolicy == sc.deletionPolicy
        && (var key := ObjectKey(content.snapshotRef.namespace, SnapshotName(snapshotHandle));
            key in c.snapshots && c.snapshots[key].contentName == name && c.snapshots[key].className == sc.name))
  }

  lemma AdoptedKept(c: R.Remote, c': R.Remote, sc: SnapshotClass, stamp: string, volumeHandle: string, snapshotHandle: string)
    requires OnlyAdds(c, c') && Adopted(c, sc, stamp, volumeHandle, snapshotHandle)
    ensures Adopted(c', sc, stamp, volumeHandle, snapshotHandle)
  {
    var name := ContentName(volumeHandle, stamp);
    assert c'.contents[name] == c.contents[name];
    var key := ObjectKey(c.contents[name].snapshotRef.namespace, SnapshotName(snapshotHandle));
    assert c'.snapshots[key] == c.snapshots[key];
  }

  lemma AdoptAdopts(p: Plan, pair: (string, string), ns: string, claim: Lookup<Claim>, c: R.Remote)
    ensures var r := Adopt(p, pair, ns, claim, c);
      r.0 ==> Adopted(r.1, p.snapshotClass, p.stamp, pair.0, pair.1)
  {
    var r := Adopt(p, pair, ns, claim, c);
    var ref := MakeSnapReference(pair.1, ns);
    var content := MakeVolSnapContent(pair.1, pair.0, ref, p.snapshotClass, p.stamp);
    var (contentOk, c2) := R.AddSnapshotContent(c, content);
    if contentOk {
      var s := MakeSnapshotObject(ref.name, content.name, p.snapshotClass.name, ns);
      var (snapOk, c3) := R.AddSnapshot(c2, s);
      if snapOk {
        assert Adopted(c3, p.snapshotClass, p.stamp, pair.0, pair.1);
        if claim.Found? && !SkipsClaim(c3, p.storageClass) {
          var restored := MakeClaimFromSnapshot(claim.value.name, ns, ref.name, p.storageClass, claim.value.spec);
          AddClaimOnlyAdds(c3, restored);
          AdoptedKept(c3, r.1, p.snapshotClass, p.stamp, pair.0, pair.1);
        }
      }
    }
  }

  lemma PairStepAdopts(l: L.Local, p: Plan, pair: (string, string), ns: string, c: R.Remote)
    ensures var r := PairStep(l, p, pair, ns, c); r.0 ==> Adopted(r.2, p.snapshotClass, p.stamp, pair.0, pair.1)
  {
    var claim := PairClaim(l, p, pair.0);
    var ns1 := if Clones(claim, ns) then "cloned-" + ns else ns;
    var c1 := if Clones(claim, ns) then R.AddNamespace(c, ns1).1 else c;
    AdoptAdopts(p, pair, ns1, claim, c1);
  }

  /** When the loop succeeds, every pair's snapshot has been adopted: its
      content and its snapshot object are in place and bound to each other
      and to the plan's snapshot class. */
  lemma {:induction false} PairsAdoptAll(l: L.Local, p: Plan, pairs: seq<(string, string)>, ns: string, c: R.Remote)
    ensures var r := Pairs(l, p, pairs, ns, c);
      r.0 ==> forall i | 0 <= i < |pairs| :: Adopted(r.2, p.snapshotClass, p.stamp, pairs[i].0, pairs[i].1)
    decreases |pairs|
  {
    var r := Pairs(l, p, pairs, ns, c);
    if pairs != [] && r.0 {
      var step := PairStep(l, p, pairs[0], ns, c);
      PairStepAdopts(l, p, pairs[0], ns, c);
      PairsAdoptAll(l, p, pairs[1..], step.1, step.2);
      PairsOnlyAdd(l, p, pairs[1..], step.1, step.2);
      AdoptedKept(step.2, r.2, p.snapshotClass, p.stamp, pairs[0].0, pairs[0].1);
      forall i | 0 <= i < |pairs| ensures Adopted(r.2, p.snapshotClass, p.stamp, pairs[i].0, pairs[i].1) {
        if i > 0 {
          assert pairs[i] == pairs[1..][i - 1];
        }
      }
    }
  }

  /** The claim `claim` has been restored from the snapshot `snapshotHandle`:
      a claim of its name lives in the namespace of the snapshot the content
      for `volumeHandle` refers to, takes that snapshot as its data source,
      asks for `storageClass` and keeps the source claim's access modes and
      requested resources. */
  predicate Restored(c: R.Remote, stamp: string, storageClass: string, claim: Claim, volumeHandle: string, snapshotHandle: string)
  {
    var name := ContentName(volumeHandle, stamp);
    name in c.contents
    && (var key := ObjectKey(c.contents[name].snapshotRef.namespace, claim.name);
        key in c.claims
        && c.claims[key].name == claim.name
        && c.claims[key].spec.dataSource == Some(DataSource(SnapshotApiGroup, VolumeSnapshotKind, SnapshotName(snapshotHandle)))
        && c.claims[key].spec.storageClassName == storageClass
        && c.claims[key].spec.accessModes == claim.spec.accessModes
        && c.claims[key].spec.resources == claim.spec.resources)
  }

  lemma RestoredKept(c: R.Remote, c': R.Remote, stamp: string, storageClass: string, claim: Claim, volumeHandle: string, snapshotHandle: string)
    requires OnlyAdds(c, c') && Restored(c, stamp, storageClass, claim, volumeHandle, snapshotHandle)
    ensures Restored(c', stamp, storageClass, claim, volumeHandle, snapshotHandle)
  {
    var name := ContentName(volumeHandle, stamp);
    assert c'.contents[name] == c.contents[name];
    var key := ObjectKey(c.contents[name].snapshotRef.namespace, claim.name);
    assert c'.claims[key] == c.claims[key];
  }

  lemma AdoptRestores(p: Plan, pair: (string, string), ns: string, claim: Lookup<Claim>, c: R.Remote)
    requires claim.Found? && !SkipsClaim(c, p.storageClass)
    ensures var r := Adopt(p, pair, ns, claim, c);
      r.0 ==> Restored(r.1, p.stamp, p.storageClass, claim.value, pair.0, pair.1)
  {
    var ref := MakeSnapReference(pair.1, ns);
    var content := MakeVolSnapContent(pair.1, pair.0, ref, p.snapshotClass, p.stamp);
    var (contentOk, c2) := R.AddSnapshotContent(c, content);
    if contentOk {
      var (snapOk, c3) := R.AddSnapshot(c2, MakeSnapshotObject(ref.name, content.name, p.snapshotClass.name, ns));
      if snapOk {
        assert c3.storageClasses == c.storageClasses && c3.faults == c.faults;
        assert c3.contents[content.name] == content;
        var restored := MakeClaimFromSnapshot(claim.value.name, ns, ref.name, p.storageClass, claim.value.spec);
        var (claimOk, c4) := R.AddClaim(c3, restored);
        if claimOk {
          assert c4.contents[content.name] == content;
          assert c4.claims[ObjectKey(ns, claim.value.name)] == restored;
        }
      }
    }
  }

  lemma PairStepRestores(l: L.Local, p: Plan, pair: (string, string), ns: string, c: R.Remote)
    requires p.createClaims && !SkipsClaim(c, p.storageClass) && FindClaim(l, p.group, pair.0).Found?
    ensures var r := PairStep(l, p, pair, ns, c);
      r.0 ==> Restored(r.2, p.stamp, p.storageClass, FindClaim(l, p.group, pair.0).value, pair.0, pair.1)
  {
    var claim := PairClaim(l, p, pair.0);
    var ns1 := if Clones(claim, ns) then "cloned-" + ns else ns;
    var c1 := if Clones(claim, ns) then R.AddNamespace(c, ns1).1 else c;
    assert c1.storageClasses == c.storageClasses && c1.faults == c.faults;
    AdoptRestores(p, pair, ns1, claim, c1);
  }

  /** When claims are asked for and the storage class does not have
      replication enabled, a successful loop has restored, for every pair
      whose volume backs a labelled claim, that claim from the pair's
      snapshot. */
  lemma {:induction false} PairsRestoreClaims(l: L.Local, p: Plan, pairs: seq<(string, string)>, ns: string, c: R.Remote)
    requires p.createClaims && !SkipsClaim(c, p.storageClass)
    ensures var r := Pairs(l, p, pairs, ns, c);
      r.0 ==> forall i | 0 <= i < |pairs| && FindClaim(l, p.group, pairs[i].0).Found? ::
        Restored(r.2, p.stamp, p.storageClass, FindClaim(l, p.group, pairs[i].0).value, pairs[i].0, pairs[i].1)
    decreases |pairs|
  {
    var r := Pairs(l, p, pairs, ns, c);
    if pairs != [] && r.0 {
      var step := PairStep(l, p, pairs[0], ns, c);
      PairStepOnlyAdds(l, p, pairs[0], ns, c);
      assert SkipsClaim(step.2, p.storageClass) <==> SkipsClaim(c, p.storageClass);
      PairsRestoreClaims(l, p, pairs[1..], step.1, step.2);
      PairsOnlyAdd(l, p, pairs[1..], step.1, step.2);
      if FindClaim(l, p.group, pairs[0].0).Found? {
        PairStepRestores(l, p, pairs[0], ns, c);
        RestoredKept(step.2, r.2, p.stamp, p.storageClass, FindClaim(l, p.group, pairs[0].0).value, pairs[0].0, pairs[0].1);
      }
      forall i | 0 <= i < |pairs| && FindClaim(l, p.group, pairs[i].0).Found?
        ensures Restored(r.2, p.stamp, p.storageClass, FindClaim(l, p.group, pairs[i].0).value, pairs[i].0, pairs[i].1)
      {
        if i > 0 {
          assert pairs[i] == pairs[1..][i - 1];
        }
      }
    }
  }

  /** No claim is restored when claims are not asked for, or when the
      target storage class has replication enabled. */
  lemma {:induction false} NoClaimsUnlessAllowed(l: L.Local, p: Plan, pairs: seq<(string, string)>, ns: string, c: R.Remote)
    requires !p.createClaims || SkipsClaim(c, p.storageClass)
    ensures Pairs(l, p, pairs, ns, c).2.claims == c.claims
    decreases |pairs|
  {
    if pairs != [] {
      var step := PairStep(l, p, pairs[0], ns, c);
      PairStepKeepsClaims(l, p, pairs[0], ns, c);
      PairStepOnlyAdds(l, p, pairs[0], ns, c);
      if step.0 {
        assert SkipsClaim(step.2, p.storageClass) <==> SkipsClaim(c, p.storageClass);
        NoClaimsUnlessAllowed(l, p, pairs[1..], step.1, step.2);
      }
    }
  }

  lemma PairStepKeepsClaims(l: L.Local, p: Plan, pair: (string, string), ns: string, c: R.Remote)
    requires !p.createClaims || SkipsClaim(c, p.storageClass)
    ensures PairStep(l, p, pair, ns, c).2.claims == c.claims
  {
    var claim := PairClaim(l, p, pair.0);
    var ns1 := if Clones(claim, ns) then "cloned-" + ns else ns;
    var c1 := if Clones(claim, ns) then R.AddNamespace(c, ns1).1 else c;
    assert c1.claims == c.claims && c1.storageClasses == c.storageClasses && c1.faults == c.faults;
    AdoptKeepsClaims(p, pair, ns1, claim, c1);
  }

  lemma AdoptKeepsClaims(p: Plan, pair: (string, string), ns: string, claim: Lookup<Claim>, c: R.Remote)
    requires !claim.Found? || SkipsClaim(c, p.storageClass)
    ensures Adopt(p, pair, ns, claim, c).1.claims == c.claims
  {
    var ref := MakeSnapReference(pair.1, ns);
    var content := MakeVolSnapContent(pair.1, pair.0, ref, p.snapshotClass, p.stamp);
    var c2 := R.AddSnapshotContent(c, content).1;
    assert c2.claims == c.claims && c2.storageClasses == c.storageClasses && c2.faults == c.faults;
    var c3 := R.AddSnapshot(c2, MakeSnapshotObject(ref.name, content.name, p.snapshotClass.name, ns)).1;
    assert c3.claims == c.claims && c3.storageClasses == c.storageClasses && c3.faults == c.faults;
  }

  /** The pair's content and snapshot object are in namespace `ns`: the
      content refers to a snapshot there, and that snapshot exists. */
  predicate LandsIn(c: R.Remote, stamp: string, volumeHandle: string, snapshotHandle: string, ns: string)
  {
    var name := ContentName(volumeHandle, stamp);
    name in c.contents && c.contents[name].snapshotRef.namespace == ns
    && ObjectKey(ns, SnapshotName(snapshotHandle)) in c.snapshots
  }

  lemma LandsInKept(c: R.Remote, c': R.Remote, stamp: string, volumeHandle: string, snapshotHandle: string, ns: string)
    requires OnlyAdds(c, c') && LandsIn(c, stamp, volumeHandle, snapshotHandle, ns)
    ensures LandsIn(c', stamp, volumeHandle, snapshotHandle, ns)
  {
    assert c'.contents[ContentName(volumeHandle, stamp)] == c.contents[ContentName(volumeHandle, stamp)];
  }

  /** One iteration places the pair's objects in the namespace it hands on,
      which is never the namespace of the live claim the pair's volume backs,
      so a claim restored there cannot collide with it; without that claim
      in the way, the namespace stays as it was. */
  lemma PairStepLands(l: L.Local, p: Plan, pair: (string, string), ns: string, c: R.Remote)
    ensures var r := PairStep(l, p, pair, ns, c);
      var claim := PairClaim(l, p, pair.0);
      (claim.Found? ==> r.1 != claim.value.namespace)
      && (!Clones(claim, ns) ==> r.1 == ns)
      && (r.0 ==> LandsIn(r.2, p.stamp, pair.0, pair.1, r.1))
  {
    var claim := PairClaim(l, p, pair.0);
    var ns1 := if Clones(claim, ns) then "cloned-" + ns else ns;
    if Clones(claim, ns) {
      assert |ns1| != |claim.value.namespace|;
    }
    var c1 := if Clones(claim, ns) then R.AddNamespace(c, ns1).1 else c;
    var ref := MakeSnapReference(pair.1, ns1);
    var content := MakeVolSnapContent(pair.1, pair.0, ref, p.snapshotClass, p.stamp);
    var (contentOk, c2) := R.AddSnapshotContent(c1, content);
    if contentOk {
      var (snapOk, c3) := R.AddSnapshot(c2, MakeSnapshotObject(ref.name, content.name, p.snapshotClass.name, ns1));
      if snapOk {
        assert LandsIn(c3, p.stamp, pair.0, pair.1, ns1);
        if claim.Found? && !SkipsClaim(c3, p.storageClass) {
          var restored := MakeClaimFromSnapshot(claim.value.name, ns1, ref.name, p.storageClass, claim.value.spec);
          AddClaimOnlyAdds(c3, restored);
          LandsInKept(c3, R.AddClaim(c3, restored).1, p.stamp, pair.0, pair.1, ns1);
        }
      }
    }
  }

  /** While no pair's claim lives in the current namespace, the loop stays
      there and places every pair's objects in it. */
  lemma {:induction false} PairsLandIn(l: L.Local, p: Plan, pairs: seq<(string, string)>, ns: string, c: R.Remote)
    requires forall i | 0 <= i < |pairs| :: !Clones(PairClaim(l, p, pairs[i].0), ns)
    ensures var r := Pairs(l, p, pairs, ns, c);
      r.0 ==> r.1 == ns && forall i | 0 <= i < |pairs| :: LandsIn(r.2, p.stamp, pairs[i].0, pairs[i].1, ns)
    decreases |pairs|
  {
    var r := Pairs(l, p, pairs, ns, c);
    if pairs != [] && r.0 {
      var step := PairStep(l, p, pairs[0], ns, c);
      PairStepLands(l, p, pairs[0], ns, c);
      assert forall i | 0 <= i < |pairs[1..]| :: pairs[1..][i] == pairs[i + 1];
      PairsLandIn(l, p, pairs[1..], ns, step.2);
      PairsOnlyAdd(l, p, pairs[1..], ns, step.2);
      LandsInKept(step.2, r.2, p.stamp, pairs[0].0, pairs[0].1, ns);
      forall i | 0 <= i < |pairs| ensures LandsIn(r.2, p.stamp, pairs[i].0, pairs[i].1, ns) {
        if i > 0 {
          assert pairs[i] == pairs[1..][i - 1];
        }
      }
    }
  }

  /** After any prefix `a` of the pairs, a claim found in the namespace the
      loop has reached moves that pair and every later one to the "cloned-"
      namespace, up to a later pair whose claim lives there in turn. */
  lemma CloneNamespacePersists(l: L.Local, p: Plan, a: seq<(string, string)>, first: (string, string),
                               rest: seq<(string, string)>, ns: string, c: R.Remote)
    requires Clones(PairClaim(l, p, first.0), Pairs(l, p, a, ns, c).1)
    requires forall i | 0 <= i < |rest| :: !Clones(PairClaim(l, p, rest[i].0), "cloned-" + Pairs(l, p, a, ns, c).1)
    ensures var cloned := "cloned-" + Pairs(l, p, a, ns, c).1;
      var r := Pairs(l, p, a + [first] + rest, ns, c);
      r.0 ==> LandsIn(r.2, p.stamp, first.0, first.1, cloned)
              && forall i | 0 <= i < |rest| :: LandsIn(r.2, p.stamp, rest[i].0, rest[i].1, cloned)
  {
    var mid := Pairs(l, p, a, ns, c);
    var cloned := "cloned-" + mid.1;
    assert a + [first] + rest == a + ([first] + rest);
    PairsSplit(l, p, a, [first] + rest, ns, c);
    var r := Pairs(l, p, a + [first] + rest, ns, c);
    if mid.0 && r.0 {
      assert ([first] + rest)[0] == first && ([first] + rest)[1..] == rest;
      var step := PairStep(l, p, first, mid.1, mid.2);
      assert step.1 == cloned;
      PairStepLands(l, p, first, mid.1, mid.2);
      PairsLandIn(l, p, rest, cloned, step.2);
      PairsOnlyAdd(l, p, rest, cloned, step.2);
      LandsInKept(step.2, r.2, p.stamp, first.0, first.1, cloned);
    }
  }

  // ---------------------------------------------------------------------
  // The whole snapshot event

  /** The action annotation cannot be decoded: an error, and nothing is
      created. */
  lemma UndecodableActionFails(cfg: Config, l: L.Local, g: Group, c: R.Remote, stamp: string)
    requires HasAnnotation(g, ActionKey) && cfg.decode(Annotation(g, ActionKey)).None?
    ensures SnapshotEvent(cfg, l, g, c, stamp) == (false, c)
  {
  }

  /** A snapshot class named by the group that cannot be read is an error,
      and no content, snapshot or claim is created. */
  lemma NamedClassMustExist(cfg: Config, l: L.Local, g: Group, c: R.Remote, stamp: string)
    requires HasAnnotation(g, ActionKey) && cfg.decode(Annotation(g, ActionKey)).Some?
    requires Annotation(g, SnapshotClassKey) != ""
    requires !R.SnapshotClassAt(c, Annotation(g, SnapshotClassKey)).Found?
    ensures var r := SnapshotEvent(cfg, l, g, c, stamp);
      !r.0 && r.1.contents == c.contents && r.1.snapshots == c.snapshots && r.1.claims == c.claims
  {
    var ns := cfg.decode(Annotation(g, ActionKey)).value.snapshotNamespace;
    if !R.NamespaceAt(c, ns).Found? {
      var (nsOk, c1) := R.AddNamespace(c, ns);
      if nsOk {
        assert R.SnapshotClassAt(c1, ClassName(g)) == R.SnapshotClassAt(c, ClassName(g));
        assert SnapshotsInto(cfg, l, g, ns, c1, stamp) == (false, c1);
      }
    }
  }

  /** OnlyAdds, with snapshot classes allowed to be added too. */
  predicate Grows(c: R.Remote, c': R.Remote)
  {
    OnlyAdds(c.(snapshotClasses := c'.snapshotClasses), c')
    && forall k | k in c.snapshotClasses :: k in c'.snapshotClasses && c'.snapshotClasses[k] == c.snapshotClasses[k]
  }

  lemma GrowsAfter(c1: R.Remote, c2: R.Remote, c3: R.Remote)
    requires Grows(c1, c2) && OnlyAdds(c2, c3)
    ensures Grows(c1, c3)
  {
  }

  lemma AddSnapshotClassGrows(c: R.Remote, sc: SnapshotClass)
    ensures Grows(c, R.AddSnapshotClass(c, sc).1)
  {
  }

  /** Whatever happens, the snapshot event only adds to the remote cluster;
      the one snapshot class it may create is added too. */
  lemma SnapshotEventOnlyAdds(cfg: Config, l: L.Local, g: Group, c: R.Remote, stamp: string)
    ensures Grows(c, SnapshotEvent(cfg, l, g, c, stamp).1)
    ensures SnapshotEvent(cfg, l, g, c, stamp).1.snapshotClasses.Keys <= c.snapshotClasses.Keys + {ClassName(g)}
  {
    if HasAnnotation(g, ActionKey) && cfg.decode(Annotation(g, ActionKey)).Some? {
      var ns := cfg.decode(Annotation(g, ActionKey)).value.snapshotNamespace;
      var (nsOk, c1) := if R.NamespaceAt(c, ns).Found? then (true, c) else R.AddNamespace(c, ns);
      AddNamespaceOnlyAdds(c, ns);
      if nsOk {
        SnapshotsIntoGrows(cfg, l, g, ns, c1, stamp);
        SnapshotsIntoClassKeys(cfg, l, g, ns, c1, stamp);
      }
    }
  }

  lemma SnapshotsIntoClassKeys(cfg: Config, l: L.Local, g: Group, ns: string, c1: R.Remote, stamp: string)
    ensures SnapshotsInto(cfg, l, g, ns, c1, stamp).1.snapshotClasses.Keys <= c1.snapshotClasses.Keys + {ClassName(g)}
  {
    if !(Annotation(g, SnapshotClassKey) != "" && !R.SnapshotClassAt(c1, ClassName(g)).Found?) {
      var storageClass := Annotation(g, StorageClassKey(cfg.domain));
      var createClaims := ShouldCreatePvc(Annotation(g, CreateClaimsKey(cfg.domain)), storageClass);
      var attrs := g.status.lastAction.attributes;
      match R.SnapshotClassAt(c1, ClassName(g))
      case Failed =>
      case NotFound =>
        var sc := MakeSnapshotClassRef(Label(g, DriverNameKey), ClassName(g));
        var (scOk, c2) := R.AddSnapshotClass(c1, sc);
        if scOk {
          PairsOnlyAdd(l, Plan(g.name, sc, createClaims, storageClass, stamp), attrs, ns, c2);
        }
      case Found(sc) =>
        PairsOnlyAdd(l, Plan(g.name, sc, createClaims, storageClass, stamp), attrs, ns, c1);
    }
  }

  lemma SnapshotsIntoGrows(cfg: Config, l: L.Local, g: Group, ns: string, c1: R.Remote, stamp: string)
    ensures Grows(c1, SnapshotsInto(cfg, l, g, ns, c1, stamp).1)
  {
    var r := SnapshotsInto(cfg, l, g, ns, c1, stamp);
    if !(Annotation(g, SnapshotClassKey) != "" && !R.SnapshotClassAt(c1, ClassName(g)).Found?) {
      var storageClass := Annotation(g, StorageClassKey(cfg.domain));
      var createClaims := ShouldCreatePvc(Annotation(g, CreateClaimsKey(cfg.domain)), storageClass);
      var attrs := g.status.lastAction.attributes;
      match R.SnapshotClassAt(c1, ClassName(g))
      case Failed =>
      case NotFound =>
        var sc := MakeSnapshotClassRef(Label(g, DriverNameKey), ClassName(g));
        var (scOk, c2) := R.AddSnapshotClass(c1, sc);
        AddSnapshotClassGrows(c1, sc);
        if scOk {
          var p := Plan(g.name, sc, createClaims, storageClass, stamp);
          PairsOnlyAdd(l, p, attrs, ns, c2);
          GrowsAfter(c1, c2, r.1);
        }
      case Found(sc) =>
        var p := Plan(g.name, sc, createClaims, storageClass, stamp);
        PairsOnlyAdd(l, p, attrs, ns, c1);
    }
  }

  /** With no snapshot class of the group's class name, a successful event
      has created the default one: the group names no class, and the class
      created carries the default name, the driver label of the group and the
      Delete policy. */
  lemma DefaultClassCreated(cfg: Config, l: L.Local, g: Group, c: R.Remote, stamp: string)
    requires HasAnnotation(g, ActionKey) && cfg.decode(Annotation(g, ActionKey)).Some?
    requires R.SnapshotClassAt(c, ClassName(g)) == NotFound
    ensures var r := SnapshotEvent(cfg, l, g, c, stamp);
      r.0 ==> Annotation(g, SnapshotClassKey) == ""
              && ClassName(g) == DefaultSnapshotClassName(Label(g, DriverNameKey))
              && ClassName(g) in r.1.snapshotClasses
              && r.1.snapshotClasses[ClassName(g)] == SnapshotClass(ClassName(g), Label(g, DriverNameKey), DeletionPolicyDelete)
  {
    var ns := cfg.decode(Annotation(g, ActionKey)).value.snapshotNamespace;
    var (nsOk, c1) := if R.NamespaceAt(c, ns).Found? then (true, c) else R.AddNamespace(c, ns);
    if nsOk {
      assert SnapshotEvent(cfg, l, g, c, stamp) == SnapshotsInto(cfg, l, g, ns, c1, stamp);
      DefaultClassInto(cfg, l, g, ns, c1, stamp);
    }
  }

  lemma DefaultClassInto(cfg: Config, l: L.Local, g: Group, ns: string, c1: R.Remote, stamp: string)
    requires R.SnapshotClassAt(c1, ClassName(g)) == NotFound
    ensures var r := SnapshotsInto(cfg, l, g, ns, c1, stamp);
      r.0 ==> Annotation(g, SnapshotClassKey) == ""
              && ClassName(g) in r.1.snapshotClasses
              && r.1.snapshotClasses[ClassName(g)] == SnapshotClass(ClassName(g), Label(g, DriverNameKey), DeletionPolicyDelete)
  {
    if Annotation(g, SnapshotClassKey) == "" {
      var storageClass := Annotation(g, StorageClassKey(cfg.domain));
      var createClaims := ShouldCreatePvc(Annotation(g, CreateClaimsKey(cfg.domain)), storageClass);
      var sc := MakeSnapshotClassRef(Label(g, DriverNameKey), ClassName(g));
      var (scOk, c2) := R.AddSnapshotClass(c1, sc);
      if scOk {
        PairsOnlyAdd(l, Plan(g.name, sc, createClaims, storageClass, stamp), g.status.lastAction.attributes, ns, c2);
      }
    }
  }

  /** A successful event has every pair of the action adopted, with the
      snapshot class of the group's class name as it stands afterwards. */
  lemma SnapshotEventAdoptsAll(cfg: Config, l: L.Local, g: Group, c: R.Remote, stamp: string)
    requires HasAnnotation(g, ActionKey)
    ensures var r := SnapshotEvent(cfg, l, g, c, stamp);
      var attrs := g.status.lastAction.attributes;
      r.0 ==> cfg.decode(Annotation(g, ActionKey)).Some? && ClassName(g) in r.1.snapshotClasses
              && forall i | 0 <= i < |attrs| :: Adopted(r.1, r.1.snapshotClasses[ClassName(g)], stamp, attrs[i].0, attrs[i].1)
  {
    if cfg.decode(Annotation(g, ActionKey)).Some? {
      var ns := cfg.decode(Annotation(g, ActionKey)).value.snapshotNamespace;
      var (nsOk, c1) := if R.NamespaceAt(c, ns).Found? then (true, c) else R.AddNamespace(c, ns);
      if nsOk {
        assert SnapshotEvent(cfg, l, g, c, stamp) == SnapshotsInto(cfg, l, g, ns, c1, stamp);
        SnapshotsIntoAdoptsAll(cfg, l, g, ns, c1, stamp);
      }
    }
  }

  lemma SnapshotsIntoAdoptsAll(cfg: Config, l: L.Local, g: Group, ns: string, c1: R.Remote, stamp: string)
    ensures var r := SnapshotsInto(cfg, l, g, ns, c1, stamp);
      var attrs := g.status.lastAction.attributes;
      r.0 ==> ClassName(g) in r.1.snapshotClasses
              && forall i | 0 <= i < |attrs| :: Adopted(r.1, r.1.snapshotClasses[ClassName(g)], stamp, attrs[i].0, attrs[i].1)
  {
    if !(Annotation(g, SnapshotClassKey) != "" && !R.SnapshotClassAt(c1, ClassName(g)).Found?) {
      var storageClass := Annotation(g, StorageClassKey(cfg.domain));
      var createClaims := ShouldCreatePvc(Annotation(g, CreateClaimsKey(cfg.domain)), storageClass);
      var attrs := g.status.lastAction.attributes;
      match R.SnapshotClassAt(c1, ClassName(g))
      case Failed =>
      case NotFound =>
        var sc := MakeSnapshotClassRef(Label(g, DriverNameKey), ClassName(g));
        var (scOk, c2) := R.AddSnapshotClass(c1, sc);
        if scOk {
          var p := Plan(g.name, sc, createClaims, storageClass, stamp);
          PairsOnlyAdd(l, p, attrs, ns, c2);
          PairsAdoptAll(l, p, attrs, ns, c2);
        }
      case Found(sc) =>
        var p := Plan(g.name, sc, createClaims, storageClass, stamp);
        PairsOnlyAdd(l, p, attrs, ns, c1);
        PairsAdoptAll(l, p, attrs, ns, c1);
    }
  }

  /** The snapshot event never touches replication groups. */
  lemma SnapshotEventKeepsGroups(cfg: Config, l: L.Local, g: Group, c: R.Remote, stamp: string)
    ensures SnapshotEvent(cfg, l, g, c, stamp).1.groups == c.groups
    ensures SnapshotEvent(cfg, l, g, c, stamp).1.faults == c.faults
  {
    SnapshotEventOnlyAdds(cfg, l, g, c, stamp);
  }
}
