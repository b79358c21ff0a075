// ServiceExportReconciler.extractEndpoints: the endpoints a cluster wants registered for an exported service.
module Extract {
  import opened Common
  import opened Decimal
  import opened Model
  import opened Codec
  import opened Ports
  import opened Registry
  import opened SliceTheorems

  datatype ExportEndpoint = ExportEndpoint(addresses: seq<string>, ready: Option<bool>, hostname: Option<string>, nodeName: Option<string>)

  // The part of a discovery.EndpointSlice of the exported service that is read.
  datatype ExportSlice = ExportSlice(addressType: string, ports: seq<EndpointPort>, endpoints: seq<ExportEndpoint>)

  // What all endpoints of one call have in common.
  datatype Context = Context(servicePorts: map<string, Port>, clusterId: string, setId: string,
                             serviceType: string, created: int64, attributes: map<AttrKey, string>)

  // What the API server lets through, with FQDN slices left out.
  predicate ValidSlice(s: ExportSlice) {
    && (s.addressType == IPV4 || s.addressType == IPV6)
    && forall p :: p in s.ports ==> 0 <= p.port as int < PORT_LIMIT
  }

  predicate ValidContext(ctx: Context) {
    && (forall name :: name in ctx.servicePorts ==> 0 <= ctx.servicePorts[name].port as int < PORT_LIMIT)
    && (forall k :: k in ctx.attributes ==> k.Custom?)
  }

  // The attributes every exported endpoint gets.
  function VersionAttributes(version: string): (attributes: map<AttrKey, string>)
    ensures forall k :: k in attributes ==> k.Custom?
  {
    VersionIsCustom();
    map[Custom(K8S_VERSION_ATTR) := version]
  }

  // ASCII lower case, which is all a protocol name needs.
  function ToLower(s: string): string {
    seq(|s|, i requires 0 <= i < |s| => if 'A' <= s[i] <= 'Z' then (s[i] as int + 32) as char else s[i])
  }

  function Underscored(address: string): string {
    seq(|address|, i requires 0 <= i < |address| => if address[i] == '.' || address[i] == ':' then '_' else address[i])
  }

  // "<protocol>-<address>-<port>"
  function EndpointIdFromIPAddressAndPort(address: string, port: Port): string {
    ToLower(port.protocol) + ['-'] + Underscored(address) + ['-'] + FormatInt(port.port as int)
  }

  function OrEmpty(s: Option<string>): string {
    if s.Some? then s.value else ""
  }

  function ServicePortFor(ctx: Context, name: string): Port {
    if name in ctx.servicePorts then ctx.servicePorts[name] else Port("", 0, "", "")
  }

  function MakeEndpoint(ctx: Context, addressType: string, port: EndpointPort, ep: ExportEndpoint, address: string): Endpoint {
    var p := EndpointPortToPort(port);
    Endpoint(EndpointIdFromIPAddressAndPort(address, p), address, addressType, p, ServicePortFor(ctx, port.name),
             ctx.clusterId, ctx.setId, ctx.serviceType, ctx.created, ep.ready == Some(true),
             OrEmpty(ep.hostname), OrEmpty(ep.nodeName), ctx.attributes)
  }

  // ---- The four nested loops ----

  function OfAddresses(ctx: Context, addressType: string, port: EndpointPort, ep: ExportEndpoint, addresses: seq<string>): seq<Endpoint> {
    seq(|addresses|, i requires 0 <= i < |addresses| => MakeEndpoint(ctx, addressType, port, ep, addresses[i]))
  }

  function OfEndpoints(ctx: Context, addressType: string, port: EndpointPort, eps: seq<ExportEndpoint>): seq<Endpoint> {
    if eps == [] then [] else
      var last := eps[|eps| - 1];
      OfEndpoints(ctx, addressType, port, eps[..|eps| - 1]) + OfAddresses(ctx, addressType, port, last, last.addresses)
  }

  function OfPorts(ctx: Context, s: ExportSlice, ports: seq<EndpointPort>): seq<Endpoint> {
    if ports == [] then [] else
      OfPorts(ctx, s, ports[..|ports| - 1]) + OfEndpoints(ctx, s.addressType, ports[|ports| - 1], s.endpoints)
  }

  function OfSlices(ctx: Context, slices: seq<ExportSlice>): seq<Endpoint> {
    if slices == [] then [] else
      var last := slices[|slices| - 1];
      OfSlices(ctx, slices[..|slices| - 1]) + OfPorts(ctx, last, last.ports)
  }

  method ExtractEndpoints(ctx: Context, slices: seq<ExportSlice>) returns (endpoints: seq<Endpoint>)
    ensures endpoints == OfSlices(ctx, slices)
  {
    endpoints := [];
    for i := 0 to |slices|
      invariant endpoints == OfSlices(ctx, slices[..i])
    {
      assert slices[..i + 1][..i] == slices[..i];
      endpoints := ExtractSlice(ctx, slices[i], endpoints);
    }
    assert slices[..|slices|] == slices;
  }

  method ExtractSlice(ctx: Context, slice: ExportSlice, before: seq<Endpoint>) returns (endpoints: seq<Endpoint>)
    ensures endpoints == before + OfPorts(ctx, slice, slice.ports)
  {
    endpoints := before;
    for i := 0 to |slice.ports|
      invariant endpoints == before + OfPorts(ctx, slice, slice.ports[..i])
    {
      OfPortsNext(ctx, slice, i, before);
      endpoints := ExtractPort(ctx, slice, slice.ports[i], endpoints);
    }
    assert slice.ports[..|slice.ports|] == slice.ports;
  }

  lemma OfPortsNext(ctx: Context, s: ExportSlice, i: nat, before: seq<Endpoint>)
    requires i < |s.ports|
    ensures before + OfPorts(ctx, s, s.ports[..i + 1])
         == before + OfPorts(ctx, s, s.ports[..i]) + OfEndpoints(ctx, s.addressType, s.ports[i], s.endpoints)
  {
    var front, last := OfPorts(ctx, s, s.ports[..i]), OfEndpoints(ctx, s.addressType, s.ports[i], s.endpoints);
    assert s.ports[..i + 1][..i] == s.ports[..i];
    assert before + (front + last) == before + front + last;
  }

  method ExtractPort(ctx: Context, slice: ExportSlice, port: EndpointPort, before: seq<Endpoint>) returns (endpoints: seq<Endpoint>)
    ensures endpoints == before + OfEndpoints(ctx, slice.addressType, port, slice.endpoints)
  {
    endpoints := before;
    for i := 0 to |slice.endpoints|
      invariant endpoints == before + OfEndpoints(ctx, slice.addressType, port, slice.endpoints[..i])
    {
      OfEndpointsNext(ctx, slice, port, i, before);
      endpoints := ExtractAddresses(ctx, slice, port, slice.endpoints[i], endpoints);
    }
    assert slice.endpoints[..|slice.endpoints|] == slice.endpoints;
  }

  lemma OfEndpointsNext(ctx: Context, s: ExportSlice, port: EndpointPort, i: nat, before: seq<Endpoint>)
    requires i < |s.endpoints|
    ensures before + OfEndpoints(ctx, s.addressType, port, s.endpoints[..i + 1])
         == before + OfEndpoints(ctx, s.addressType, port, s.endpoints[..i])
                   + OfAddresses(ctx, s.addressType, port, s.endpoints[i], s.endpoints[i].addresses)
  {
    var front := OfEndpoints(ctx, s.addressType, port, s.endpoints[..i]);
    var last := OfAddresses(ctx, s.addressType, port, s.endpoints[i], s.endpoints[i].addresses);
    assert s.endpoints[..i + 1][..i] == s.endpoints[..i];
    assert before + (front + last) == before + front + last;
  }

  method ExtractAddresses(ctx: Context, slice: ExportSlice, port: EndpointPort, ep: ExportEndpoint, before: seq<Endpoint>)
    returns (endpoints: seq<Endpoint>)
    ensures endpoints == before + OfAddresses(ctx, slice.addressType, port, ep, ep.addresses)
  {
    endpoints := before;
    for j := 0 to |ep.addresses|
      invariant endpoints == before + OfAddresses(ctx, slice.addressType, port, ep, ep.addresses[..j])
    {
      endpoints := endpoints + [MakeEndpoint(ctx, slice.addressType, port, ep, ep.addresses[j])];
    }
    assert ep.addresses[..|ep.addresses|] == ep.addresses;
  }

  // ---- What comes out ----

  // e is made of one address of one endpoint and one port of one slice.
  ghost predicate MadeFrom(ctx: Context, s: ExportSlice, p: EndpointPort, ep: ExportEndpoint, a: string, e: Endpoint) {
    p in s.ports && ep in s.endpoints && a in ep.addresses && e == MakeEndpoint(ctx, s.addressType, p, ep, a)
  }

  // The endpoints are exactly the combinations of a slice's ports with its addresses.
  lemma {:induction false} ExtractedIff(ctx: Context, slices: seq<ExportSlice>, e: Endpoint)
    ensures e in OfSlices(ctx, slices) <==> exists s, p, ep, a :: s in slices && MadeFrom(ctx, s, p, ep, a, e)
  {
    if slices != [] {
      var init, last := slices[..|slices| - 1], slices[|slices| - 1];
      assert slices == init + [last];
      ExtractedIff(ctx, init, e);
      PortsIff(ctx, last, last.ports, e);
      if e in OfPorts(ctx, last, last.ports) {
        var p, ep, a :| p in last.ports && ep in last.endpoints && a in ep.addresses && e == MakeEndpoint(ctx, last.addressType, p, ep, a);
        assert MadeFrom(ctx, last, p, ep, a, e);
      }
    }
  }

  lemma {:induction false} PortsIff(ctx: Context, s: ExportSlice, ports: seq<EndpointPort>, e: Endpoint)
    ensures e in OfPorts(ctx, s, ports) <==>
            exists p, ep, a :: p in ports && ep in s.endpoints && a in ep.addresses && e == MakeEndpoint(ctx, s.addressType, p, ep, a)
  {
    if ports != [] {
      var init, last := ports[..|ports| - 1], ports[|ports| - 1];
      assert ports == init + [last];
      PortsIff(ctx, s, init, e);
      EndpointsIff(ctx, s.addressType, last, s.endpoints, e);
    }
  }

  lemma {:induction false} EndpointsIff(ctx: Context, addressType: string, p: EndpointPort, eps: seq<ExportEndpoint>, e: Endpoint)
    ensures e in OfEndpoints(ctx, addressType, p, eps) <==>
            exists ep, a :: ep in eps && a in ep.addresses && e == MakeEndpoint(ctx, addressType, p, ep, a)
  {
    if eps != [] {
      var init, last := eps[..|eps| - 1], eps[|eps| - 1];
      assert eps == init + [last];
      EndpointsIff(ctx, addressType, p, init, e);
      AddressesIff(ctx, addressType, p, last, last.addresses, e);
    }
  }

  lemma AddressesIff(ctx: Context, addressType: string, p: EndpointPort, ep: ExportEndpoint, addresses: seq<string>, e: Endpoint)
    ensures e in OfAddresses(ctx, addressType, p, ep, addresses)
            <==> exists a :: a in addresses && e == MakeEndpoint(ctx, addressType, p, ep, a)
  {
    if a :| a in addresses && e == MakeEndpoint(ctx, addressType, p, ep, a) {
      var i :| 0 <= i < |addresses| && addresses[i] == a;
      assert OfAddresses(ctx, addressType, p, ep, addresses)[i] == e;
    }
  }

  // Everything extracted survives being registered and read back.
  lemma ExtractedExportable(ctx: Context, slices: seq<ExportSlice>)
    requires ValidContext(ctx) && forall s :: s in slices ==> ValidSlice(s)
    ensures forall e :: e in OfSlices(ctx, slices) ==> Exportable(e, ctx.setId, ctx.clusterId)
  {
    forall e | e in OfSlices(ctx, slices) ensures Exportable(e, ctx.setId, ctx.clusterId) {
      ExtractedIff(ctx, slices, e);
      var s, p, ep, a :| s in slices && MadeFrom(ctx, s, p, ep, a, e);
    }
  }

  // When all slices have the same port ids, every extracted address is extracted with every extracted port,
  // which is when the importing planner serves exactly the exported pairs.
  lemma ExtractedOnEveryPort(ctx: Context, slices: seq<ExportSlice>)
    requires forall s, t :: s in slices && t in slices ==> multiset(PortIds(ToPorts(s.ports))) == multiset(PortIds(ToPorts(t.ports)))
    ensures EveryAddressOnEveryPort(OfSlices(ctx, slices))
  {
    var es := OfSlices(ctx, slices);
    forall e, f | e in es && f in es ensures Desires(es, e.ip, f.endpointPort.GetID()) {
      ExtractedIff(ctx, slices, e);
      ExtractedIff(ctx, slices, f);
      var s, p, ep, a :| s in slices && MadeFrom(ctx, s, p, ep, a, e);
      var t, q, eq, b :| t in slices && MadeFrom(ctx, t, q, eq, b, f);
      var r := SamePort(t, s, q);
      var g := MakeEndpoint(ctx, s.addressType, r, ep, a);
      ExtractedIff(ctx, slices, g);
      assert MadeFrom(ctx, s, r, ep, a, g);
      assert g in es && g.ip == e.ip && g.endpointPort.GetID() == f.endpointPort.GetID();
    }
  }

  lemma SamePort(t: ExportSlice, s: ExportSlice, q: EndpointPort) returns (r: EndpointPort)
    requires multiset(PortIds(ToPorts(s.ports))) == multiset(PortIds(ToPorts(t.ports))) && q in t.ports
    ensures r in s.ports && EndpointPortToPort(r).GetID() == EndpointPortToPort(q).GetID()
  {
    var id := EndpointPortToPort(q).GetID();
    var j :| 0 <= j < |t.ports| && t.ports[j] == q;
    assert PortIds(ToPorts(t.ports))[j] == id;
    assert id in multiset(PortIds(ToPorts(s.ports)));
    var i :| 0 <= i < |s.ports| && PortIds(ToPorts(s.ports))[i] == id;
    r := s.ports[i];
  }

  // Lower case changes upper-case letters only, and leaves none.
  lemma LowerCase(s: string)
    ensures |ToLower(s)| == |s|
    ensures forall i :: 0 <= i < |s| ==> !('A' <= ToLower(s)[i] <= 'Z')
    ensures forall i :: 0 <= i < |s| && !('A' <= s[i] <= 'Z') ==> ToLower(s)[i] == s[i]
    ensures forall i :: 0 <= i < |s| && 'A' <= s[i] <= 'Z' ==> ToLower(s)[i] as int - 'a' as int == s[i] as int - 'A' as int
  {
  }

  // The id of an IPv4 address
  lemma EndpointIdExample(name: string, target: string)
    ensures EndpointIdFromIPAddressAndPort("192.168.0.1", Port(name, 80, target, "TCP")) == "tcp-192_168_0_1-80"
  {
    assert FormatNat(80) == FormatNat(8) + [DigitChar(0)];
    assert ToLower("TCP") == "tcp";
    assert Underscored("192.168.0.1") == "192_168_0_1";
    assert "tcp" + ['-'] + "192_168_0_1" + ['-'] + "80" == "tcp-192_168_0_1-80";
  }

  // Two ids agree exactly when the port numbers, the protocols up to case, and the addresses up to which
  // separator they use agree.
  lemma EndpointIdsAgreeIff(a: string, p: Port, b: string, q: Port)
    requires '-' !in a && '-' !in b && p.port >= 0 && q.port >= 0
    ensures EndpointIdFromIPAddressAndPort(a, p) == EndpointIdFromIPAddressAndPort(b, q)
            <==> Underscored(a) == Underscored(b) && p.port == q.port && ToLower(p.protocol) == ToLower(q.protocol)
  {
    if EndpointIdFromIPAddressAndPort(a, p) == EndpointIdFromIPAddressAndPort(b, q) {
      var m, n := p.port as int, q.port as int;
      NoMarkInNumber(m, '-');
      NoMarkInNumber(n, '-');
      var x, y := ToLower(p.protocol) + ['-'] + Underscored(a), ToLower(q.protocol) + ['-'] + Underscored(b);
      SplitAtMark(x, FormatInt(m), y, FormatInt(n), '-');
      FormatIntInjective(m, n);
      SplitAtMark(ToLower(p.protocol), Underscored(a), ToLower(q.protocol), Underscored(b), '-');
    }
  }

  // Two texts look alike once the separators are replaced exactly when they differ in separators only.
  lemma UnderscoredAlikeIff(a: string, b: string)
    ensures Underscored(a) == Underscored(b)
            <==> |a| == |b| && forall i :: 0 <= i < |a| ==> a[i] == b[i] || (IsSeparator(a[i]) && IsSeparator(b[i]))
  {
    if Underscored(a) == Underscored(b) {
      assert |a| == |Underscored(a)| && |b| == |Underscored(b)|;
      forall i | 0 <= i < |a| ensures a[i] == b[i] || (IsSeparator(a[i]) && IsSeparator(b[i])) {
        assert Underscored(a)[i] == Underscored(b)[i];
      }
    }
  }

  predicate IsSeparator(c: char) {
    c == '.' || c == ':' || c == '_'
  }

  // Two notations of IPv6 that share an id although they are different addresses.
  lemma MixedNotationCollides(p: Port)
    ensures EndpointIdFromIPAddressAndPort("::1.2.3.4", p) == EndpointIdFromIPAddressAndPort("::1:2:3:4", p)
  {
    UnderscoredAlikeIff("::1.2.3.4", "::1:2:3:4");
  }
}
