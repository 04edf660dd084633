/** The local cluster's API server as the controller sees it through its
    embedded client: replication groups by name, the claim and volume
    inventory, and the requests it answers with an error. */
module LocalStore {
  import opened Types

  datatype Local = Local(
    groups: map<string, Group>,
    claims: seq<Claim>,
    volumes: map<string, Volume>,
    faults: set<Request>)

  function GroupAt(l: Local, name: string): Lookup<Group>
  {
    if Request(Get, ReplicationGroups, name) in l.faults then Failed
    else if name in l.groups then Found(l.groups[name])
    else NotFound
  }

  /** The API server refuses to add a finalizer to an object whose deletion
      timestamp is set. */
  predicate AddsFinalizerToDeleting(l: Local, g: Group)
    requires g.name in l.groups
  {
    l.groups[g.name].deleting && !(g.finalizers <= l.groups[g.name].finalizers)
  }

  /** Update writes the object back; an object that is being deleted and has
      no finalizer left is removed by the API server. */
  function ReplaceGroup(l: Local, g: Group): (r: (bool, Local))
    ensures !r.0 ==> r.1 == l
    ensures r.1.claims == l.claims && r.1.volumes == l.volumes && r.1.faults == l.faults
    ensures r.0 <==> Request(Update, ReplicationGroups, g.name) !in l.faults && g.name in l.groups
                     && !AddsFinalizerToDeleting(l, g)
  {
    if Request(Update, ReplicationGroups, g.name) in l.faults || g.name !in l.groups then (false, l)
    else if AddsFinalizerToDeleting(l, g) then (false, l)
    else if g.deleting && g.finalizers == {} then (true, l.(groups := l.groups - {g.name}))
    else (true, l.(groups := l.groups[g.name := g]))
  }

  /** Delete sets the deletion timestamp while finalizers remain, and removes
      the object otherwise. */
  function MarkDeleted(l: Local, name: string): (r: (bool, Local))
    ensures !r.0 ==> r.1 == l
    ensures r.1.claims == l.claims && r.1.volumes == l.volumes && r.1.faults == l.faults
  {
    if Request(Delete, ReplicationGroups, name) in l.faults || name !in l.groups then (false, l)
    else if l.groups[name].finalizers != {} then (true, l.(groups := l.groups[name := l.groups[name].(deleting := true)]))
    else (true, l.(groups := l.groups - {name}))
  }

  /** The claims carrying the replication-group label `group`, in list order. */
  function Labelled(claims: seq<Claim>, group: string): (r: seq<Claim>)
    ensures forall c :: c in r ==> c in claims
    decreases |claims|
  {
    if claims == [] then []
    else if ReplicationGroupLabel in claims[0].labels && claims[0].labels[ReplicationGroupLabel] == group
    then [claims[0]] + Labelled(claims[1..], group)
    else Labelled(claims[1..], group)
  }

  /** List with a label selector. */
  function ClaimsOf(l: Local, group: string): Option<seq<Claim>>
  {
    if Request(List, Claims, group) in l.faults then None else Some(Labelled(l.claims, group))
  }

  function VolumeAt(l: Local, name: string): Lookup<Volume>
  {
    if Request(Get, Volumes, name) in l.faults then Failed
    else if name in l.volumes then Found(l.volumes[name])
    else NotFound
  }
}
