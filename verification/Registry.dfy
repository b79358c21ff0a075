// The instances of one Cloud Map service, and the part of them that belongs to one cluster.
module Registry {
  import opened Common
  import opened Model
  import opened Codec
  import opened Diff

  type Instances = map<string, Attributes>

  // DiscoverInstances asks for the cluster set; instances that do not parse are skipped.
  predicate Readable(reg: Instances, setId: string, id: string) {
    && id in reg
    && ClusterSetIdAttr in reg[id] && reg[id][ClusterSetIdAttr] == setId
    && NewEndpointFromInstance(id, reg[id]).Ok?
  }

  // What a read of the service gives: the endpoints of the cluster set.
  function Listed(reg: Instances, setId: string): map<string, Endpoint> {
    map id | id in reg && Readable(reg, setId, id) :: NewEndpointFromInstance(id, reg[id]).value
  }

  // Service.GetEndpoints, on the list a read gives ...
  function OfCluster(es: seq<Endpoint>, clusterId: string): seq<Endpoint> {
    if es == [] then [] else
      OfCluster(es[..|es| - 1], clusterId) + if es[|es| - 1].clusterId == clusterId then [es[|es| - 1]] else []
  }

  // ... and on the map the list stands for.
  function OwnOf(listed: map<string, Endpoint>, clusterId: string): map<string, Endpoint> {
    map id | id in listed && listed[id].clusterId == clusterId :: listed[id]
  }

  function Own(reg: Instances, setId: string, clusterId: string): map<string, Endpoint> {
    OwnOf(Listed(reg, setId), clusterId)
  }

  // What extractEndpoints gives a cluster: endpoints of its own that an instance can carry.
  predicate Exportable(e: Endpoint, setId: string, clusterId: string) {
    Encodable(e) && e.clusterId == clusterId && e.clusterSetId == setId
  }

  // One operation's effect on the instances.
  datatype Effect = NoEffect | Register(e: Endpoint) | Deregister(id: string)

  function Apply(reg: Instances, eff: Effect): Instances {
    match eff
    case NoEffect => reg
    case Register(e) => reg[e.id := GetCloudMapAttributes(e)]
    case Deregister(id) => reg - {id}
  }

  // The effect on what is read.
  function ApplyRead(listed: map<string, Endpoint>, eff: Effect): map<string, Endpoint> {
    match eff
    case NoEffect => listed
    case Register(e) => listed[e.id := e]
    case Deregister(id) => listed - {id}
  }

  lemma RightWins(a: Attributes, b: Attributes, k: AttrKey)
    requires k in b
    ensures k in a + b && (a + b)[k] == b[k]
  {
  }

  lemma ClusterSetOn(e: Endpoint)
    requires Encodable(e)
    ensures ClusterSetIdAttr in OwnerOn(e) && OwnerOn(e)[ClusterSetIdAttr] == e.clusterSetId
  {
    assert ClusterSetIdAttr !in StatusAttrs(e) && ClusterSetIdAttr !in e.attributes;
    assert ClusterSetIdAttr !in StatusOn(e);
  }

  lemma RegisteredIsRead(e: Endpoint)
    requires Encodable(e)
    ensures NewEndpointFromInstance(e.id, GetCloudMapAttributes(e)) == Ok(e)
    ensures ClusterSetIdAttr in GetCloudMapAttributes(e) && GetCloudMapAttributes(e)[ClusterSetIdAttr] == e.clusterSetId
  {
    PrintedParses(e);
    ClusterSetOn(e);
    RightWins(ServicePortAttrs(e.servicePort), OwnerOn(e), ClusterSetIdAttr);
    RightWins(EndpointPortAttrs(e.endpointPort), ServicePortOn(e), ClusterSetIdAttr);
    RightWins(AddressAttr(e), EndpointPortOn(e), ClusterSetIdAttr);
  }

  // Reading after an operation gives what was read before with the operation applied to it.
  lemma ReadAfter(reg: Instances, setId: string, eff: Effect)
    requires eff.Register? ==> Encodable(eff.e) && eff.e.clusterSetId == setId
    ensures Listed(Apply(reg, eff), setId) == ApplyRead(Listed(reg, setId), eff)
  {
    if eff.Register? {
      RegisteredIsRead(eff.e);
      ReadAfterPut(reg, setId, eff.e, GetCloudMapAttributes(eff.e));
    }
  }

  lemma ReadAfterPut(reg: Instances, setId: string, e: Endpoint, attributes: Attributes)
    requires NewEndpointFromInstance(e.id, attributes) == Ok(e)
    requires ClusterSetIdAttr in attributes && attributes[ClusterSetIdAttr] == setId
    ensures Listed(reg[e.id := attributes], setId) == Listed(reg, setId)[e.id := e]
  {
    forall id | id != e.id ensures Readable(reg[e.id := attributes], setId, id) <==> Readable(reg, setId, id) {}
  }

  // An operation on an id of one cluster changes that cluster's part only.
  lemma OwnAfter(listed: map<string, Endpoint>, clusterId: string, eff: Effect)
    requires eff.Register? && eff.e.clusterId != clusterId ==> eff.e.id !in OwnOf(listed, clusterId)
    ensures OwnOf(ApplyRead(listed, eff), clusterId)
         == if eff.Register? && eff.e.clusterId != clusterId then OwnOf(listed, clusterId)
            else ApplyRead(OwnOf(listed, clusterId), eff)
  {
  }

  // Another cluster registering an instance leaves a cluster's part alone exactly when the id is not in it.
  lemma TakenOverIff(listed: map<string, Endpoint>, clusterId: string, e: Endpoint)
    requires e.clusterId != clusterId
    ensures OwnOf(ApplyRead(listed, Register(e)), clusterId) == OwnOf(listed, clusterId) <==> e.id !in OwnOf(listed, clusterId)
  {
    assert e.id !in OwnOf(ApplyRead(listed, Register(e)), clusterId);
    OwnAfter(listed, clusterId, NoEffect);
  }
}
