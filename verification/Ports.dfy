// Port lists and their comparison (pkg/controllers/multicluster/utils.go).
module Ports {
  import opened Common
  import opened Model

  // discovery.EndpointPort; its three pointers are dereferenced without a check, so they are values here.
  datatype EndpointPort = EndpointPort(name: string, protocol: string, port: int32)

  function EndpointPortToPort(p: EndpointPort): Port {
    Port(p.name, p.port, "", p.protocol)
  }

  function PortToEndpointPort(p: Port): EndpointPort {
    EndpointPort(p.name, p.protocol, p.port)
  }

  function ToPorts(ports: seq<EndpointPort>): seq<Port> {
    seq(|ports|, i requires 0 <= i < |ports| => EndpointPortToPort(ports[i]))
  }

  function ToEndpointPorts(ports: seq<Port>): seq<EndpointPort> {
    seq(|ports|, i requires 0 <= i < |ports| => PortToEndpointPort(ports[i]))
  }

  function PortIds(ports: seq<Port>): seq<string> {
    seq(|ports|, i requires 0 <= i < |ports| => ports[i].GetID())
  }

  // Comparing the two id lists after sorting them is comparing them as multisets.
  predicate PortsEqualIgnoreOrder(a: seq<Port>, b: seq<Port>) {
    multiset(PortIds(a)) == multiset(PortIds(b))
  }

  // Ports written to a slice and read back are the same ports, up to the target port a slice does not carry.
  lemma WrittenPortsMatch(ports: seq<Port>)
    ensures PortsEqualIgnoreOrder(ports, ToPorts(ToEndpointPorts(ports)))
  {
    assert PortIds(ports) == PortIds(ToPorts(ToEndpointPorts(ports)));
  }

  // One port per id; the last one given for an id wins.
  function UniquePorts(ports: seq<Port>): (m: map<string, Port>)
    ensures forall id :: id in m <==> id in PortIds(ports)
    ensures forall id :: id in m ==> m[id].GetID() == id && m[id] in ports
  {
    if ports == [] then map[] else
      var init, last := ports[..|ports| - 1], ports[|ports| - 1];
      assert PortIds(ports) == PortIds(init) + [last.GetID()];
      UniquePorts(init)[last.GetID() := last]
  }

  // A list of the map's values, each once, in some order.
  ghost predicate Lists(ports: seq<Port>, m: map<string, Port>) {
    && multiset(PortIds(ports)) == multiset(m.Keys)
    && forall p :: p in ports ==> p.GetID() in m && m[p.GetID()] == p
  }

  function EndpointPorts(endpoints: seq<Endpoint>): seq<Port> {
    seq(|endpoints|, i requires 0 <= i < |endpoints| => endpoints[i].endpointPort)
  }

  function ServicePorts(endpoints: seq<Endpoint>): seq<Port> {
    seq(|endpoints|, i requires 0 <= i < |endpoints| => endpoints[i].servicePort)
  }

  method ExtractEndpointPorts(endpoints: seq<Endpoint>) returns (ports: seq<Port>)
    ensures Lists(ports, UniquePorts(EndpointPorts(endpoints)))
  {
    var uniquePorts: map<string, Port> := map[];
    for i := 0 to |endpoints|
      invariant uniquePorts == UniquePorts(EndpointPorts(endpoints[..i]))
    {
      assert EndpointPorts(endpoints[..i + 1]) == EndpointPorts(endpoints[..i]) + [endpoints[i].endpointPort];
      uniquePorts := uniquePorts[endpoints[i].endpointPort.GetID() := endpoints[i].endpointPort];
    }
    assert endpoints[..|endpoints|] == endpoints;
    ports := ListPorts(uniquePorts);
  }

  method ExtractServicePorts(endpoints: seq<Endpoint>) returns (ports: seq<Port>)
    ensures Lists(ports, UniquePorts(ServicePorts(endpoints)))
  {
    var uniquePorts: map<string, Port> := map[];
    for i := 0 to |endpoints|
      invariant uniquePorts == UniquePorts(ServicePorts(endpoints[..i]))
    {
      assert ServicePorts(endpoints[..i + 1]) == ServicePorts(endpoints[..i]) + [endpoints[i].servicePort];
      uniquePorts := uniquePorts[endpoints[i].servicePort.GetID() := endpoints[i].servicePort];
    }
    assert endpoints[..|endpoints|] == endpoints;
    ports := ListPorts(uniquePorts);
  }

  // Ranging over the map: every value once, in an arbitrary order.
  method ListPorts(m: map<string, Port>) returns (ports: seq<Port>)
    requires forall id :: id in m ==> m[id].GetID() == id
    ensures Lists(ports, m)
  {
    ports := [];
    var rest := m.Keys;
    while rest != {}
      invariant rest <= m.Keys
      invariant multiset(PortIds(ports)) + multiset(rest) == multiset(m.Keys)
      invariant forall p :: p in ports ==> p.GetID() in m && m[p.GetID()] == p
      decreases |rest|
    {
      var id :| id in rest;
      assert PortIds(ports + [m[id]]) == PortIds(ports) + [id];
      ports := ports + [m[id]];
      rest := rest - {id};
    }
  }
}
