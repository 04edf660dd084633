/** How the controller names and builds the mirror of a local replication
    group (dellcsireplicationgroup_controller.go, lines 79-144), what it records
    once mirroring is complete (lines 300-306) and the retention decision
    consulted at deletion time (lines 153-158 and 180). */
module Mirror {
  import opened Types
  import opened Strings

  /** The name the mirror is looked up and created under, before the
      create/verify decision. */
  function MirrorName(name: string, g: Group): (r: string)
    ensures g.spec.remoteClusterId == Self && !HasPrefix(name, Replicated) ==> r == Replicated + "-" + name
    ensures !(g.spec.remoteClusterId == Self && !HasPrefix(name, Replicated)) ==>
      if Annotation(g, RGSyncCompleteKey) == "yes" then r == Annotation(g, RemoteReplicationGroupKey)
      else if Annotation(g, RemoteReplicationGroupKey) != "" then r == Annotation(g, RemoteReplicationGroupKey)
      else r == name
  {
    var recorded := Annotation(g, RemoteReplicationGroupKey);
    var fromAnnotation := if recorded == "" then name else recorded;
    var beforeSelf := if Annotation(g, RGSyncCompleteKey) == "yes" then recorded else fromAnnotation;
    if g.spec.remoteClusterId == Self && !HasPrefix(name, Replicated) then Replicated + "-" + name
    else beforeSelf
  }

  /** The identity this cluster claims on the mirror: the sentinel Self when
      replicating within the cluster. */
  function SourceClusterId(clusterId: string, g: Group): string
  {
    if g.spec.remoteClusterId == Self then Self else clusterId
  }

  /** The label a driver attribute `k` is projected to: the domain followed
      by the key without the context prefix. */
  function LabelKey(k: string, prefix: string, domain: string): string
    requires HasPrefix(k, prefix)
  {
    domain + TrimPrefix(k, prefix)
  }

  lemma LabelKeyInjective(k1: string, k2: string, prefix: string, domain: string)
    requires HasPrefix(k1, prefix) && HasPrefix(k2, prefix)
    requires LabelKey(k1, prefix, domain) == LabelKey(k2, prefix, domain)
    ensures k1 == k2
  {
    assert TrimPrefix(k1, prefix) == LabelKey(k1, prefix, domain)[|domain|..];
    assert TrimPrefix(k2, prefix) == LabelKey(k2, prefix, domain)[|domain|..];
  }

  /** The labels projected from the attributes whose keys carry `prefix`. */
  function DriverLabels(attrs: map<string, string>, prefix: string, domain: string): (r: map<string, string>)
    ensures forall k | k in attrs && HasPrefix(k, prefix) ::
      LabelKey(k, prefix, domain) in r && r[LabelKey(k, prefix, domain)] == attrs[k]
    ensures forall l | l in r :: exists k | k in attrs && HasPrefix(k, prefix) :: l == LabelKey(k, prefix, domain)
  {
    assert forall k1, k2 | k1 in attrs && HasPrefix(k1, prefix) && k2 in attrs && HasPrefix(k2, prefix)
      && LabelKey(k1, prefix, domain) == LabelKey(k2, prefix, domain) :: k1 == k2 by {
      forall k1, k2 | k1 in attrs && HasPrefix(k1, prefix) && k2 in attrs && HasPrefix(k2, prefix)
        && LabelKey(k1, prefix, domain) == LabelKey(k2, prefix, domain) ensures k1 == k2 {
        LabelKeyInjective(k1, k2, prefix, domain);
      }
    }
    map k | k in attrs && HasPrefix(k, prefix) :: LabelKey(k, prefix, domain) := attrs[k]
  }

  /** Exactly the attributes named `prefix + s` become labels named `domain + s`,
      with the attribute's value. */
  lemma {:induction false} DriverLabelsExactly(attrs: map<string, string>, prefix: string, domain: string, s: string)
    ensures domain + s in DriverLabels(attrs, prefix, domain) <==> prefix + s in attrs
    ensures prefix + s in attrs ==> DriverLabels(attrs, prefix, domain)[domain + s] == attrs[prefix + s]
  {
    var r := DriverLabels(attrs, prefix, domain);
    var k := prefix + s;
    assert k[..|prefix|] == prefix;
    assert TrimPrefix(k, prefix) == s;
    if domain + s in r {
      var k' :| k' in attrs && HasPrefix(k', prefix) && domain + s == LabelKey(k', prefix, domain);
      assert TrimPrefix(k', prefix) == (domain + s)[|domain|..];
    }
  }

  /** Adding one attribute adds at most one label: its projection, when its
      key carries the prefix. */
  lemma DriverLabelsInsert(a: map<string, string>, k: string, v: string, prefix: string, domain: string)
    requires k !in a
    ensures HasPrefix(k, prefix) ==>
      DriverLabels(a[k := v], prefix, domain) == DriverLabels(a, prefix, domain)[LabelKey(k, prefix, domain) := v]
    ensures !HasPrefix(k, prefix) ==> DriverLabels(a[k := v], prefix, domain) == DriverLabels(a, prefix, domain)
  {
    if HasPrefix(k, prefix) {
      InsertPrefixed(a, k, v, prefix, domain);
    } else {
      InsertUnprefixed(a, k, v, prefix, domain);
    }
  }

  lemma InsertPrefixed(a: map<string, string>, k: string, v: string, prefix: string, domain: string)
    requires k !in a && HasPrefix(k, prefix)
    ensures DriverLabels(a[k := v], prefix, domain) == DriverLabels(a, prefix, domain)[LabelKey(k, prefix, domain) := v]
  {
    var after, expected := DriverLabels(a[k := v], prefix, domain), DriverLabels(a, prefix, domain)[LabelKey(k, prefix, domain) := v];
    InsertPrefixedWithin(a, k, v, prefix, domain);
    InsertPrefixedCovers(a, k, v, prefix, domain);
    assert after.Keys == expected.Keys;
  }

  /** Every entry of `m` is an entry of `m'`. */
  predicate SubMap(m: map<string, string>, m': map<string, string>)
  {
    forall l | l in m :: l in m' && m[l] == m'[l]
  }

  lemma InsertPrefixedWithin(a: map<string, string>, k: string, v: string, prefix: string, domain: string)
    requires k !in a && HasPrefix(k, prefix)
    ensures SubMap(DriverLabels(a[k := v], prefix, domain), DriverLabels(a, prefix, domain)[LabelKey(k, prefix, domain) := v])
  {
    var after, expected := DriverLabels(a[k := v], prefix, domain), DriverLabels(a, prefix, domain)[LabelKey(k, prefix, domain) := v];
    forall l | l in after ensures l in expected && after[l] == expected[l] {
      InsertedLabel(a, k, v, prefix, domain, l);
    }
  }

  lemma InsertPrefixedCovers(a: map<string, string>, k: string, v: string, prefix: string, domain: string)
    requires k !in a && HasPrefix(k, prefix)
    ensures (DriverLabels(a, prefix, domain)[LabelKey(k, prefix, domain) := v]).Keys <= DriverLabels(a[k := v], prefix, domain).Keys
  {
    var key := LabelKey(k, prefix, domain);
    var after, expected := DriverLabels(a[k := v], prefix, domain), DriverLabels(a, prefix, domain)[key := v];
    forall l | l in expected ensures l in after {
      if l != key {
        var k' :| k' in a && HasPrefix(k', prefix) && l == LabelKey(k', prefix, domain);
        assert k' in a[k := v];
      }
    }
  }

  lemma InsertUnprefixed(a: map<string, string>, k: string, v: string, prefix: string, domain: string)
    requires k !in a && !HasPrefix(k, prefix)
    ensures DriverLabels(a[k := v], prefix, domain) == DriverLabels(a, prefix, domain)
  {
    var before, after := DriverLabels(a, prefix, domain), DriverLabels(a[k := v], prefix, domain);
    forall l | l in after ensures l in before && after[l] == before[l] {
      InsertedLabel(a, k, v, prefix, domain, l);
    }
    forall l | l in before ensures l in after {
      var k' :| k' in a && HasPrefix(k', prefix) && l == LabelKey(k', prefix, domain);
      assert k' in a[k := v];
    }
    assert after.Keys == before.Keys;
  }

  lemma InsertedLabel(a: map<string, string>, k: string, v: string, prefix: string, domain: string, l: string)
    requires k !in a
    requires l in DriverLabels(a[k := v], prefix, domain)
    ensures HasPrefix(k, prefix) && l == LabelKey(k, prefix, domain) ==> DriverLabels(a[k := v], prefix, domain)[l] == v
    ensures !(HasPrefix(k, prefix) && l == LabelKey(k, prefix, domain)) ==>
      l in DriverLabels(a, prefix, domain) && DriverLabels(a[k := v], prefix, domain)[l] == DriverLabels(a, prefix, domain)[l]
  {
    var k' :| k' in a[k := v] && HasPrefix(k', prefix) && l == LabelKey(k', prefix, domain);
    if HasPrefix(k, prefix) && l == LabelKey(k, prefix, domain) {
      LabelKeyInjective(k, k', prefix, domain);
    } else {
      assert k' != k;
      assert k' in a;
    }
  }

  lemma UnionUpdate(m1: map<string, string>, m2: map<string, string>, k: string, v: string)
    ensures (m1 + m2)[k := v] == m1 + m2[k := v]
  {
  }

  lemma RemoveOneMore(attrs: map<string, string>, pending: set<string>, k: string)
    requires k in pending && pending <= attrs.Keys
    ensures attrs - (pending - {k}) == (attrs - pending)[k := attrs[k]] && k !in attrs - pending
  {
  }

  /** The loop of Reconcile that projects the driver attributes onto the
      mirror's labels, visiting the attributes in an arbitrary order; the
      outcome does not depend on that order. */
  method ApplyDriverLabels(labels: map<string, string>, attrs: map<string, string>, prefix: string, domain: string)
    returns (r: map<string, string>)
    ensures r == labels + DriverLabels(attrs, prefix, domain)
  {
    r := labels;
    var pending := attrs.Keys;
    assert attrs - pending == map[];
    while pending != {}
      invariant pending <= attrs.Keys
      invariant r == labels + DriverLabels(attrs - pending, prefix, domain)
      decreases pending
    {
      var k :| k in pending;
      RemoveOneMore(attrs, pending, k);
      DriverLabelsInsert(attrs - pending, k, attrs[k], prefix, domain);
      if HasPrefix(k, prefix) {
        UnionUpdate(labels, DriverLabels(attrs - pending, prefix, domain), LabelKey(k, prefix, domain), attrs[k]);
        r := r[LabelKey(k, prefix, domain) := attrs[k]];
      }
      pending := pending - {k};
    }
    assert attrs - pending == attrs;
  }

  /** The labels of the mirror: the driver name and the claimed source
      cluster, overridden by the projected driver attributes when the local
      group names a context prefix. */
  function MirrorLabels(domain: string, g: Group, sourceCluster: string): map<string, string>
  {
    var prefix := Annotation(g, ContextPrefixKey);
    var base := map[DriverNameKey := Label(g, DriverNameKey), RemoteClusterIdKey := sourceCluster];
    if prefix != "" then base + DriverLabels(g.spec.remoteProtectionGroupAttributes, prefix, domain) else base
  }

  /** The spec of the mirror: the local and remote protection-group fields
      swap places, the source cluster is recorded and no action is carried. */
  function MirrorSpec(spec: GroupSpec, sourceCluster: string): (r: GroupSpec)
    ensures r.protectionGroupId == spec.remoteProtectionGroupId
    ensures r.protectionGroupAttributes == spec.remoteProtectionGroupAttributes
    ensures r.remoteProtectionGroupId == spec.protectionGroupId
    ensures r.remoteProtectionGroupAttributes == spec.protectionGroupAttributes
    ensures r.driverName == spec.driverName && r.action == "" && r.remoteClusterId == sourceCluster
  {
    GroupSpec(
      driverName := spec.driverName,
      action := "",
      remoteClusterId := sourceCluster,
      protectionGroupId := spec.remoteProtectionGroupId,
      protectionGroupAttributes := spec.remoteProtectionGroupAttributes,
      remoteProtectionGroupId := spec.protectionGroupId,
      remoteProtectionGroupAttributes := spec.protectionGroupAttributes)
  }

  /** Mirroring is its own inverse on the protection-group fields: the mirror
      of a mirror carries the original's identifiers, attributes and driver. */
  lemma MirrorSpecInvolution(spec: GroupSpec, c1: string, c2: string)
    ensures var back := MirrorSpec(MirrorSpec(spec, c1), c2);
      back == spec.(action := "", remoteClusterId := c2)
  {
  }

  /** The annotations a mirror is created with: the local group's name, its
      retention policy and the cluster it is mirrored from. */
  function MirrorAnnotations(name: string, policy: string, sourceCluster: string): (a: map<string, string>)
    ensures a.Keys == {RemoteReplicationGroupKey, RemoteRGRetentionPolicyKey, RemoteClusterIdKey}
    ensures a[RemoteReplicationGroupKey] == name && a[RemoteRGRetentionPolicyKey] == policy
    ensures a[RemoteClusterIdKey] == sourceCluster
    ensures DeletionRequestedKey !in a && RGSyncCompleteKey !in a
  {
    MirrorKeysDistinct();
    map[RemoteReplicationGroupKey := name, RemoteRGRetentionPolicyKey := policy, RemoteClusterIdKey := sourceCluster]
  }

  /** The mirror object built for the local group `g`, named `mirrorName`. */
  function MirrorObject(domain: string, g: Group, name: string, mirrorName: string, sourceCluster: string): (m: Group)
    ensures m.name == mirrorName && m.spec == MirrorSpec(g.spec, sourceCluster)
    ensures Annotation(m, RemoteReplicationGroupKey) == name
    ensures Annotation(m, RemoteClusterIdKey) == sourceCluster
    ensures Annotation(m, RemoteRGRetentionPolicyKey) == Annotation(g, RemoteRGRetentionPolicyKey)
    ensures !HasAnnotation(m, DeletionRequestedKey) && !HasAnnotation(m, RGSyncCompleteKey)
    ensures m.labels == MirrorLabels(domain, g, sourceCluster)
    ensures m.finalizers == {} && !m.deleting && m.status == EmptyStatus
  {
    Group(
      name := mirrorName,
      annotations := Some(MirrorAnnotations(name, Annotation(g, RemoteRGRetentionPolicyKey), sourceCluster)),
      labels := MirrorLabels(domain, g, sourceCluster),
      finalizers := {},
      deleting := false,
      spec := MirrorSpec(g.spec, sourceCluster),
      status := EmptyStatus)
  }

  /** The name a mirror is renamed to when the one found under the computed
      name belongs to another source or driver. */
  function QualifiedName(sourceCluster: string, name: string): string
  {
    "SourceClusterId-" + sourceCluster + "-" + name
  }

  /** The name recorded in the RemoteReplicationGroup annotation once the
      mirror is in place. */
  function RecordedName(name: string, mirrorName: string): (r: string)
    ensures !Contains(name, Replicated) ==> r == mirrorName
    ensures HasPrefix(name, Replicated + "-") ==> name == Replicated + "-" + r
    ensures Contains(name, Replicated) && !HasPrefix(name, Replicated + "-") ==> r == name
  {
    if Contains(name, Replicated) then TrimPrefix(name, Replicated + "-") else mirrorName
  }

  /** The name the recording step evidently means to keep: for a group
      replicated within the cluster whose own name is `replicated-x`, the
      group `x` it mirrors; otherwise the mirror just found or created. */
  function IntendedRecordedName(g: Group, name: string, mirrorName: string): (r: string)
    ensures g.spec.remoteClusterId != Self || !HasPrefix(name, Replicated + "-") ==> r == mirrorName
    ensures g.spec.remoteClusterId == Self && HasPrefix(name, Replicated + "-") ==> name == Replicated + "-" + r
  {
    if g.spec.remoteClusterId == Self && HasPrefix(name, Replicated + "-") then TrimPrefix(name, Replicated + "-")
    else mirrorName
  }

  /** The retention policy annotation, defaulting to retain when absent. */
  function RetentionPolicy(g: Group): string
  {
    if HasAnnotation(g, RemoteRGRetentionPolicyKey) then Annotation(g, RemoteRGRetentionPolicyKey)
    else RetentionRetain
  }

  /** The policy asks for the mirror's deletion, compared without case. */
  predicate DeletesMirror(policy: string)
  {
    ToLower(policy) == RetentionDelete
  }

  /** Without a retention annotation the mirror is retained. */
  lemma RetainByDefault(g: Group)
    requires !HasAnnotation(g, RemoteRGRetentionPolicyKey)
    ensures !DeletesMirror(RetentionPolicy(g))
  {
    assert ToLower(RetentionRetain)[0] == 'r';
  }

  /** The comparison ignores case: any capitalisation of "delete" deletes. */
  lemma {:induction false} DeletesMirrorIgnoresCase(policy: string)
    requires |policy| == |RetentionDelete|
    requires forall i :: 0 <= i < |policy| ==> LowerChar(policy[i]) == RetentionDelete[i]
    ensures DeletesMirror(policy)
  {
    assert ToLower(policy) == RetentionDelete;
  }
}
