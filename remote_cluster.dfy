/** The remote cluster reached through the connection layer: the objects the
    controller reads and creates there, the requests it answers with an error,
    and a client object whose methods perform those requests. Creating an
    object whose name is taken fails, as the API server answers AlreadyExists. */
module RemoteCluster {
  import opened Types

  datatype Remote = Remote(
    groups: map<string, Group>,
    namespaces: set<string>,
    snapshotClasses: map<string, SnapshotClass>,
    contents: map<string, SnapshotContent>,
    snapshots: map<ObjectKey, VolumeSnapshot>,
    storageClasses: map<string, StorageClass>,
    claims: map<ObjectKey, Claim>,
    faults: set<Request>)

  /** Config.GetConnection for the cluster named `clusterId`. */
  predicate Connects(c: Remote, clusterId: string)
  {
    Request(Connect, Connection, clusterId) !in c.faults
  }

  function GroupAt(c: Remote, name: string): Lookup<Group>
  {
    if Request(Get, ReplicationGroups, name) in c.faults then Failed
    else if name in c.groups then Found(c.groups[name])
    else NotFound
  }

  function ReplaceGroup(c: Remote, g: Group): (r: (bool, Remote))
    ensures !r.0 ==> r.1 == c
    ensures r.0 ==> r.1 == c.(groups := c.groups[g.name := g])
  {
    if Request(Update, ReplicationGroups, g.name) in c.faults || g.name !in c.groups then (false, c)
    else (true, c.(groups := c.groups[g.name := g]))
  }

  function AddGroup(c: Remote, g: Group): (r: (bool, Remote))
    ensures r.0 <==> Request(Create, ReplicationGroups, g.name) !in c.faults && g.name !in c.groups
    ensures r.1 == if r.0 then c.(groups := c.groups[g.name := g]) else c
  {
    if Request(Create, ReplicationGroups, g.name) in c.faults || g.name in c.groups then (false, c)
    else (true, c.(groups := c.groups[g.name := g]))
  }

  function NamespaceAt(c: Remote, ns: string): Lookup<string>
  {
    if Request(Get, Namespaces, ns) in c.faults then Failed
    else if ns in c.namespaces then Found(ns)
    else NotFound
  }

  function AddNamespace(c: Remote, ns: string): (r: (bool, Remote))
    ensures r.1 == if r.0 then c.(namespaces := c.namespaces + {ns}) else c
  {
    if Request(Create, Namespaces, ns) in c.faults || ns in c.namespaces then (false, c)
    else (true, c.(namespaces := c.namespaces + {ns}))
  }

  function SnapshotClassAt(c: Remote, name: string): Lookup<SnapshotClass>
  {
    if Request(Get, SnapshotClasses, name) in c.faults then Failed
    else if name in c.snapshotClasses then Found(c.snapshotClasses[name])
    else NotFound
  }

  function AddSnapshotClass(c: Remote, sc: SnapshotClass): (r: (bool, Remote))
    ensures r.1 == if r.0 then c.(snapshotClasses := c.snapshotClasses[sc.name := sc]) else c
  {
    if Request(Create, SnapshotClasses, sc.name) in c.faults || sc.name in c.snapshotClasses then (false, c)
    else (true, c.(snapshotClasses := c.snapshotClasses[sc.name := sc]))
  }

  function AddSnapshotContent(c: Remote, content: SnapshotContent): (r: (bool, Remote))
    ensures r.0 <==> Request(Create, SnapshotContents, content.name) !in c.faults && content.name !in c.contents
    ensures r.1 == if r.0 then c.(contents := c.contents[content.name := content]) else c
  {
    if Request(Create, SnapshotContents, content.name) in c.faults || content.name in c.contents then (false, c)
    else (true, c.(contents := c.contents[content.name := content]))
  }

  function AddSnapshot(c: Remote, s: VolumeSnapshot): (r: (bool, Remote))
    ensures r.1 == if r.0 then c.(snapshots := c.snapshots[ObjectKey(s.namespace, s.name) := s]) else c
  {
    var key := ObjectKey(s.namespace, s.name);
    if Request(Create, VolumeSnapshots, s.name) in c.faults || key in c.snapshots then (false, c)
    else (true, c.(snapshots := c.snapshots[key := s]))
  }

  function StorageClassAt(c: Remote, name: string): Lookup<StorageClass>
  {
    if Request(Get, StorageClasses, name) in c.faults then Failed
    else if name in c.storageClasses then Found(c.storageClasses[name])
    else NotFound
  }

  function AddClaim(c: Remote, claim: Claim): (r: (bool, Remote))
    ensures r.1 == if r.0 then c.(claims := c.claims[ObjectKey(claim.namespace, claim.name) := claim]) else c
  {
    var key := ObjectKey(claim.namespace, claim.name);
    if Request(Create, Claims, claim.name) in c.faults || key in c.claims then (false, c)
    else (true, c.(claims := c.claims[key := claim]))
  }

  /** connection.RemoteClusterClient: each method performs one request on
      the cluster's state `cluster` and agrees with the function above that
      models it. */
  class RemoteClusterClient {
    var cluster: Remote

    constructor (c: Remote)
      ensures cluster == c
    {
      cluster := c;
    }

    /** Config.GetConnection: whether a client for the cluster `clusterId`
        can be obtained. */
    method GetConnection(clusterId: string) returns (ok: bool)
      ensures ok == Connects(cluster, clusterId)
    {
      ok := Request(Connect, Connection, clusterId) !in cluster.faults;
    }

    method GetReplicationGroup(name: string) returns (r: Lookup<Group>)
      ensures r == GroupAt(cluster, name)
    {
      if Request(Get, ReplicationGroups, name) in cluster.faults {
        r := Failed;
      } else if name in cluster.groups {
        r := Found(cluster.groups[name]);
      } else {
        r := NotFound;
      }
    }

    method UpdateReplicationGroup(g: Group) returns (ok: bool)
      modifies this
      ensures (ok, cluster) == ReplaceGroup(old(cluster), g)
    {
      ok := Request(Update, ReplicationGroups, g.name) !in cluster.faults && g.name in cluster.groups;
      if ok {
        cluster := cluster.(groups := cluster.groups[g.name := g]);
      }
    }

    method CreateReplicationGroup(g: Group) returns (ok: bool)
      modifies this
      ensures (ok, cluster) == AddGroup(old(cluster), g)
    {
      ok := Request(Create, ReplicationGroups, g.name) !in cluster.faults && g.name !in cluster.groups;
      if ok {
        cluster := cluster.(groups := cluster.groups[g.name := g]);
      }
    }

    method GetNamespace(ns: string) returns (r: Lookup<string>)
      ensures r == NamespaceAt(cluster, ns)
    {
      if Request(Get, Namespaces, ns) in cluster.faults {
        r := Failed;
      } else if ns in cluster.namespaces {
        r := Found(ns);
      } else {
        r := NotFound;
      }
    }

    method CreateNamespace(ns: string) returns (ok: bool)
      modifies this
      ensures (ok, cluster) == AddNamespace(old(cluster), ns)
    {
      ok := Request(Create, Namespaces, ns) !in cluster.faults && ns !in cluster.namespaces;
      if ok {
        cluster := cluster.(namespaces := cluster.namespaces + {ns});
      }
    }

    method GetSnapshotClass(name: string) returns (r: Lookup<SnapshotClass>)
      ensures r == SnapshotClassAt(cluster, name)
    {
      if Request(Get, SnapshotClasses, name) in cluster.faults {
        r := Failed;
      } else if name in cluster.snapshotClasses {
        r := Found(cluster.snapshotClasses[name]);
      } else {
        r := NotFound;
      }
    }

    method CreateSnapshotClass(sc: SnapshotClass) returns (ok: bool)
      modifies this
      ensures (ok, cluster) == AddSnapshotClass(old(cluster), sc)
    {
      ok := Request(Create, SnapshotClasses, sc.name) !in cluster.faults && sc.name !in cluster.snapshotClasses;
      if ok {
        cluster := cluster.(snapshotClasses := cluster.snapshotClasses[sc.name := sc]);
      }
    }

    method CreateSnapshotContent(content: SnapshotContent) returns (ok: bool)
      modifies this
      ensures (ok, cluster) == AddSnapshotContent(old(cluster), content)
    {
      ok := Request(Create, SnapshotContents, content.name) !in cluster.faults && content.name !in cluster.contents;
      if ok {
        cluster := cluster.(contents := cluster.contents[content.name := content]);
      }
    }

    method CreateSnapshotObject(s: VolumeSnapshot) returns (ok: bool)
      modifies this
      ensures (ok, cluster) == AddSnapshot(old(cluster), s)
    {
      var key := ObjectKey(s.namespace, s.name);
      ok := Request(Create, VolumeSnapshots, s.name) !in cluster.faults && key !in cluster.snapshots;
      if ok {
        cluster := cluster.(snapshots := cluster.snapshots[key := s]);
      }
    }

    method GetStorageClass(name: string) returns (r: Lookup<StorageClass>)
      ensures r == StorageClassAt(cluster, name)
    {
      if Request(Get, StorageClasses, name) in cluster.faults {
        r := Failed;
      } else if name in cluster.storageClasses {
        r := Found(cluster.storageClasses[name]);
      } else {
        r := NotFound;
      }
    }

    method CreatePersistentVolumeClaim(claim: Claim) returns (ok: bool)
      modifies this
      ensures (ok, cluster) == AddClaim(old(cluster), claim)
    {
      var key := ObjectKey(claim.namespace, claim.name);
      ok := Request(Create, Claims, claim.name) !in cluster.faults && key !in cluster.claims;
      if ok {
        cluster := cluster.(claims := cluster.claims[key := claim]);
      }
    }
  }
}
