// What a service export asks for: the endpoints its slices give, and what each of them says.
module Desired {
  import opened Common
  import opened Model
  import opened Codec
  import opened Ports
  import opened Extract
  import opened Kube

  type Key = (string, string)

  datatype ServiceExport = ServiceExport(version: nat, finalizer: bool, hasOwner: bool, deleting: bool, created: int64)

  type Exports = map<Key, ServiceExport>

  // What the objects were at some moment.
  datatype Snapshot = Snapshot(exports: Exports, services: map<Key, KubeService>, slices: map<Key, seq<ExportSlice>>)

  function SlicesAt(m: Snapshot, key: Key): seq<ExportSlice> {
    if key in m.slices then m.slices[key] else []
  }

  // The last port given for a name wins.
  function ByName(ports: seq<Port>): (m: map<string, Port>)
    ensures forall name :: name in m ==> m[name] in ports
  {
    if ports == [] then map[] else
      var last := ports[|ports| - 1];
      ByName(ports[..|ports| - 1])[last.name := last]
  }

  function ContextOf(serviceExport: ServiceExport, service: KubeService, setId: string, clusterId: string, version: string): Context {
    Context(ByName(service.ports), clusterId, setId, if service.clusterIP == "None" then "Headless" else "ClusterSetIP",
            serviceExport.created, VersionAttributes(version))
  }

  // What the slices stored at a moment make the export want registered.
  function DesiredAt(m: Snapshot, key: Key, serviceExport: ServiceExport, service: KubeService,
                     setId: string, clusterId: string, version: string): seq<Endpoint> {
    OfSlices(ContextOf(serviceExport, service, setId, clusterId, version), SlicesAt(m, key))
  }

  // ---- What a desired endpoint says ----

  // q is the last of the ports that has this name ...
  ghost predicate NamedLast(ports: seq<Port>, name: string, q: Port) {
    exists i :: 0 <= i < |ports| && ports[i] == q && q.name == name && forall j :: i < j < |ports| ==> ports[j].name != name
  }

  // ... or is empty because there is none.
  ghost predicate ServicePortIs(ports: seq<Port>, name: string, q: Port) {
    || NamedLast(ports, name, q)
    || (q.name == "" && q.port == 0 && q.targetPort == "" && q.protocol == "" && forall j :: 0 <= j < |ports| ==> ports[j].name != name)
  }

  // e presents one address of one endpoint of slice s on port p of the slice, on behalf of the service and its export.
  ghost predicate Presents(e: Endpoint, s: ExportSlice, p: EndpointPort, ep: ExportEndpoint, a: string,
                           serviceExport: ServiceExport, service: KubeService) {
    && e.ip == a && e.addressType == s.addressType && e.id == EndpointIdFromIPAddressAndPort(a, e.endpointPort)
    && e.endpointPort.name == p.name && e.endpointPort.port == p.port && e.endpointPort.protocol == p.protocol
    && e.endpointPort.targetPort == ""
    && ServicePortIs(service.ports, p.name, e.servicePort)
    && e.ready == (ep.ready == Some(true))
    && e.hostname == (match ep.hostname case Some(name) => name case None => "")
    && e.nodename == (match ep.nodeName case Some(name) => name case None => "")
    && (if service.clusterIP == "None" then e.serviceType == "Headless" else e.serviceType == "ClusterSetIP")
    && e.serviceExportCreationTimestamp == serviceExport.created
  }

  // It belongs to this cluster, and its one further attribute names the controller's version.
  ghost predicate Signed(e: Endpoint, setId: string, clusterId: string, version: string) {
    && e.clusterId == clusterId && e.clusterSetId == setId
    && (forall k :: k in e.attributes ==> KeyName(k) == K8S_VERSION_ATTR && e.attributes[k] == version)
    && (exists k :: k in e.attributes)
  }

  ghost predicate IsIn(s: ExportSlice, p: EndpointPort, ep: ExportEndpoint, a: string) {
    p in s.ports && ep in s.endpoints && a in ep.addresses
  }

  // Every instance presents a combination of the slices, and every combination has its instance.
  ghost predicate Presented(own: map<string, Endpoint>, slices: seq<ExportSlice>, serviceExport: ServiceExport, service: KubeService,
                            setId: string, clusterId: string, version: string) {
    && (forall id :: id in own ==>
          Signed(own[id], setId, clusterId, version)
          && exists s, p, ep, a :: s in slices && IsIn(s, p, ep, a) && Presents(own[id], s, p, ep, a, serviceExport, service))
    && (forall s, p, ep, a :: s in slices && IsIn(s, p, ep, a) ==> EndpointIdFromIPAddressAndPort(a, EndpointPortToPort(p)) in own)
  }

  lemma {:induction false} ByNameIsLast(ports: seq<Port>, name: string)
    ensures name in ByName(ports) <==> exists q :: NamedLast(ports, name, q)
    ensures name in ByName(ports) ==> NamedLast(ports, name, ByName(ports)[name])
    ensures name !in ByName(ports) ==> forall j :: 0 <= j < |ports| ==> ports[j].name != name
  {
    if ports != [] {
      var init, last := ports[..|ports| - 1], ports[|ports| - 1];
      ByNameIsLast(init, name);
      if last.name == name {
        assert NamedLast(ports, name, last);
      } else {
        forall q ensures NamedLast(ports, name, q) <==> NamedLast(init, name, q) {
          NotLastNamed(ports, name, q);
        }
      }
    }
  }

  lemma NotLastNamed(ports: seq<Port>, name: string, q: Port)
    requires ports != [] && ports[|ports| - 1].name != name
    ensures NamedLast(ports, name, q) <==> NamedLast(ports[..|ports| - 1], name, q)
  {
    var init := ports[..|ports| - 1];
    if NamedLast(ports, name, q) {
      var i :| 0 <= i < |ports| && ports[i] == q && q.name == name && forall j :: i < j < |ports| ==> ports[j].name != name;
      assert init[i] == q;
    }
    if NamedLast(init, name, q) {
      var i :| 0 <= i < |init| && init[i] == q && q.name == name && forall j :: i < j < |init| ==> init[j].name != name;
      assert ports[i] == q;
    }
  }

  // Only one port can be meant by a name.
  lemma ServicePortUnique(ports: seq<Port>, name: string, q: Port, r: Port)
    requires ServicePortIs(ports, name, q) && ServicePortIs(ports, name, r)
    ensures q == r
  {
    if NamedLast(ports, name, q) && NamedLast(ports, name, r) {
      var i :| 0 <= i < |ports| && ports[i] == q && q.name == name && forall j :: i < j < |ports| ==> ports[j].name != name;
      var k :| 0 <= k < |ports| && ports[k] == r && r.name == name && forall j :: k < j < |ports| ==> ports[j].name != name;
    }
  }

  lemma ServicePortForIs(serviceExport: ServiceExport, service: KubeService, setId: string, clusterId: string, version: string, name: string)
    ensures ServicePortIs(service.ports, name, ServicePortFor(ContextOf(serviceExport, service, setId, clusterId, version), name))
  {
    ByNameIsLast(service.ports, name);
  }

  lemma MadePresents(serviceExport: ServiceExport, service: KubeService, setId: string, clusterId: string, version: string,
                     s: ExportSlice, p: EndpointPort, ep: ExportEndpoint, a: string)
    ensures var e := MakeEndpoint(ContextOf(serviceExport, service, setId, clusterId, version), s.addressType, p, ep, a);
            Presents(e, s, p, ep, a, serviceExport, service) && Signed(e, setId, clusterId, version)
  {
    ServicePortForIs(serviceExport, service, setId, clusterId, version, p.name);
    VersionIsCustom();
    assert Custom(K8S_VERSION_ATTR) in VersionAttributes(version);
  }

  // A cluster's part that has reached what the slices ask for presents them.
  lemma ReachedPresents(own: map<string, Endpoint>, m: Snapshot, key: Key, serviceExport: ServiceExport, service: KubeService,
                        setId: string, clusterId: string, version: string)
    requires var desired := DesiredAt(m, key, serviceExport, service, setId, clusterId, version);
             (forall id :: id in own ==> own[id] in desired) && (forall e :: e in desired ==> e.id in own)
    ensures Presented(own, SlicesAt(m, key), serviceExport, service, setId, clusterId, version)
  {
    var ctx, slices := ContextOf(serviceExport, service, setId, clusterId, version), SlicesAt(m, key);
    forall id | id in own
      ensures Signed(own[id], setId, clusterId, version)
      ensures exists s, p, ep, a :: s in slices && IsIn(s, p, ep, a) && Presents(own[id], s, p, ep, a, serviceExport, service)
    {
      ExtractedIff(ctx, slices, own[id]);
      var s, p, ep, a :| s in slices && MadeFrom(ctx, s, p, ep, a, own[id]);
      MadePresents(serviceExport, service, setId, clusterId, version, s, p, ep, a);
      assert s in slices && IsIn(s, p, ep, a) && Presents(own[id], s, p, ep, a, serviceExport, service);
    }
    forall s, p, ep, a | s in slices && IsIn(s, p, ep, a) ensures EndpointIdFromIPAddressAndPort(a, EndpointPortToPort(p)) in own {
      var e := MakeEndpoint(ctx, s.addressType, p, ep, a);
      ExtractedIff(ctx, slices, e);
      assert MadeFrom(ctx, s, p, ep, a, e);
      assert e in DesiredAt(m, key, serviceExport, service, setId, clusterId, version);
    }
  }

  // ---- The service ports that importers will see ----

  // id is the id of the service port some port of a slice with an address is named after.
  ghost predicate ExportsPort(slices: seq<ExportSlice>, ports: seq<Port>, id: string) {
    exists s, p, ep, a, q :: s in slices && IsIn(s, p, ep, a) && ServicePortIs(ports, p.name, q) && q.GetID() == id
  }

  // The service ports of what is exported are exactly those that the slices' ports are named after, the empty port
  // standing for a name the service does not have.
  lemma ExportedServicePorts(m: Snapshot, key: Key, serviceExport: ServiceExport, service: KubeService,
                             setId: string, clusterId: string, version: string, id: string)
    ensures var desired := DesiredAt(m, key, serviceExport, service, setId, clusterId, version);
            id in UniquePorts(ServicePorts(desired)) <==> ExportsPort(SlicesAt(m, key), service.ports, id)
  {
    var ctx, slices := ContextOf(serviceExport, service, setId, clusterId, version), SlicesAt(m, key);
    var desired := DesiredAt(m, key, serviceExport, service, setId, clusterId, version);
    if id in UniquePorts(ServicePorts(desired)) {
      var i :| 0 <= i < |PortIds(ServicePorts(desired))| && PortIds(ServicePorts(desired))[i] == id;
      var e := desired[i];
      ExtractedIff(ctx, slices, e);
      var s, p, ep, a :| s in slices && MadeFrom(ctx, s, p, ep, a, e);
      MadePresents(serviceExport, service, setId, clusterId, version, s, p, ep, a);
      assert IsIn(s, p, ep, a) && ServicePortIs(service.ports, p.name, e.servicePort) && e.servicePort.GetID() == id;
    }
    if ExportsPort(slices, service.ports, id) {
      var s, p, ep, a, q :| s in slices && IsIn(s, p, ep, a) && ServicePortIs(service.ports, p.name, q) && q.GetID() == id;
      var e := MakeEndpoint(ctx, s.addressType, p, ep, a);
      ExtractedIff(ctx, slices, e);
      assert MadeFrom(ctx, s, p, ep, a, e);
      MadePresents(serviceExport, service, setId, clusterId, version, s, p, ep, a);
      ServicePortUnique(service.ports, p.name, q, e.servicePort);
      var i :| 0 <= i < |desired| && desired[i] == e;
      assert PortIds(ServicePorts(desired))[i] == id;
    }
  }
}
