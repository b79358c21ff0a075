// Cloud Map instance attributes: Endpoint.GetCloudMapAttributes prints, NewEndpointFromInstance parses.
module Codec {
  import opened Common
  import opened Decimal
  import opened Model

  type Attributes = map<AttrKey, string>

  const PORT_LIMIT: nat := 0x1_0000
  const INT64_HALF: nat := 0x8000_0000_0000_0000

  function RemoveStringAttr(attributes: Attributes, attr: AttrKey): Result<(string, Attributes)> {
    if attr in attributes then Ok((attributes[attr], attributes - {attr}))
    else Err(NewError("cannot find the attribute " + KeyName(attr)))
  }

  function RemoveIntAttr(attributes: Attributes, attr: AttrKey): Result<(int32, Attributes)> {
    if attr !in attributes then Err(NewError("cannot find the attribute " + KeyName(attr)))
    else match ParseUint(attributes[attr], PORT_LIMIT)
      case Some(n) => Ok((n as int32, attributes - {attr}))
      case None => Err(NewError("failed to parse the " + KeyName(attr) + " as int"))
  }

  function RemoveBoolAttr(attributes: Attributes, attr: AttrKey): Result<(bool, Attributes)> {
    if attr !in attributes then Err(NewError("cannot find the attribute " + KeyName(attr)))
    else match ParseBool(attributes[attr])
      case Some(b) => Ok((b, attributes - {attr}))
      case None => Err(NewError("failed to parse the " + KeyName(attr) + " as bool"))
  }

  function RemoveTimestampAttr(attributes: Attributes, attr: AttrKey): Result<(int64, Attributes)> {
    if attr !in attributes then Err(NewError("cannot find the attribute " + KeyName(attr)))
    else match ParseInt(attributes[attr], INT64_HALF)
      case Some(i) => Ok((i as int64, attributes - {attr}))
      case None => Err(NewError("failed to parse the " + KeyName(attr) + " as int"))
  }

  // strconv.ParseBool and strconv.FormatBool
  function ParseBool(s: string): Option<bool> {
    if s in {"1", "t", "T", "TRUE", "true", "True"} then Some(true)
    else if s in {"0", "f", "F", "FALSE", "false", "False"} then Some(false)
    else None
  }

  function FormatBool(b: bool): string {
    if b then "true" else "false"
  }

  function EndpointPortFromAttr(attributes: Attributes): Result<(Port, Attributes)> {
    var (name, a1) :- RemoveStringAttr(attributes, EndpointPortNameAttr);
    var (port, a2) :- RemoveIntAttr(a1, EndpointPortAttr);
    var (protocol, a3) :- RemoveStringAttr(a2, EndpointProtocolAttr);
    Ok((Port(name, port, "", protocol), a3))
  }

  function ServicePortFromAttr(attributes: Attributes): Result<(Port, Attributes)> {
    var (targetPort, a1) :- RemoveStringAttr(attributes, ServiceTargetPortAttr);
    var (name, a2) :- RemoveStringAttr(a1, ServicePortNameAttr);
    var (port, a3) :- RemoveIntAttr(a2, ServicePortAttr);
    var (protocol, a4) :- RemoveStringAttr(a3, ServiceProtocolAttr);
    Ok((Port(name, port, targetPort, protocol), a4))
  }

  // The address and its type. With both attributes present the IPv4 one wins; with neither, both are empty.
  function AddressFromAttr(attributes: Attributes): (string, string, Attributes) {
    var rest := attributes - {Ipv4Attr, Ipv6Attr};
    if Ipv4Attr in attributes then (attributes[Ipv4Attr], IPV4, rest)
    else if Ipv6Attr in attributes then (attributes[Ipv6Attr], IPV6, rest)
    else ("", "", rest)
  }

  // Hostname and node name may be missing.
  function OptionalAttr(attributes: Attributes, attr: AttrKey): (string, Attributes) {
    if attr in attributes then (attributes[attr], attributes - {attr}) else ("", attributes)
  }

  // service type, cluster id, cluster set id
  function OwnerFromAttr(attributes: Attributes): Result<(string, string, string, Attributes)> {
    var (serviceType, a1) :- RemoveStringAttr(attributes, ServiceTypeAttr);
    var (clusterId, a2) :- RemoveStringAttr(a1, ClusterIdAttr);
    var (clusterSetId, a3) :- RemoveStringAttr(a2, ClusterSetIdAttr);
    Ok((serviceType, clusterId, clusterSetId, a3))
  }

  // ready, creation timestamp, hostname, node name
  function StatusFromAttr(attributes: Attributes): Result<(bool, int64, string, string, Attributes)> {
    var (ready, a1) :- RemoveBoolAttr(attributes, ReadyAttr);
    var (created, a2) :- RemoveTimestampAttr(a1, ExportCreationAttr);
    var (hostname, a3) := OptionalAttr(a2, HostnameAttr);
    var (nodename, a4) := OptionalAttr(a3, NodeNameAttr);
    Ok((ready, created, hostname, nodename, a4))
  }

  function NewEndpointFromInstance(id: string, attributes: Attributes): Result<Endpoint> {
    var (ip, addressType, a1) := AddressFromAttr(attributes);
    var (endpointPort, a2) :- EndpointPortFromAttr(a1);
    var (servicePort, a3) :- ServicePortFromAttr(a2);
    var (serviceType, clusterId, clusterSetId, a4) :- OwnerFromAttr(a3);
    var (ready, created, hostname, nodename, a5) :- StatusFromAttr(a4);
    Ok(Endpoint(id, ip, addressType, endpointPort, servicePort, clusterId, clusterSetId, serviceType,
                created, ready, hostname, nodename, a5))
  }

  function AddressAttr(e: Endpoint): Attributes {
    if e.addressType == IPV4 then map[Ipv4Attr := e.ip]
    else if e.addressType == IPV6 then map[Ipv6Attr := e.ip]
    else map[]
  }

  function EndpointPortAttrs(p: Port): Attributes {
    map[EndpointPortAttr := FormatInt(p.port as int), EndpointProtocolAttr := p.protocol, EndpointPortNameAttr := p.name]
  }

  function ServicePortAttrs(p: Port): Attributes {
    map[ServicePortNameAttr := p.name, ServicePortAttr := FormatInt(p.port as int),
        ServiceTargetPortAttr := p.targetPort, ServiceProtocolAttr := p.protocol]
  }

  function OwnerAttrs(e: Endpoint): Attributes {
    map[ClusterIdAttr := e.clusterId, ClusterSetIdAttr := e.clusterSetId, ServiceTypeAttr := e.serviceType]
  }

  function StatusAttrs(e: Endpoint): Attributes {
    map[ExportCreationAttr := FormatInt(e.serviceExportCreationTimestamp as int),
        ReadyAttr := FormatBool(e.ready), HostnameAttr := e.hostname, NodeNameAttr := e.nodename]
  }

  // The endpoint's own attributes are written last and override the computed ones.
  function StatusOn(e: Endpoint): Attributes {
    StatusAttrs(e) + e.attributes
  }

  function OwnerOn(e: Endpoint): Attributes {
    OwnerAttrs(e) + StatusOn(e)
  }

  function ServicePortOn(e: Endpoint): Attributes {
    ServicePortAttrs(e.servicePort) + OwnerOn(e)
  }

  function EndpointPortOn(e: Endpoint): Attributes {
    EndpointPortAttrs(e.endpointPort) + ServicePortOn(e)
  }

  function GetCloudMapAttributes(e: Endpoint): Attributes {
    AddressAttr(e) + EndpointPortOn(e)
  }

  // The map being filled, one group of keys after the other.
  method WriteAttributes(e: Endpoint) returns (attrs: Attributes)
    ensures attrs == GetCloudMapAttributes(e)
  {
    attrs := map[];
    if e.addressType == IPV4 {
      attrs := attrs[Ipv4Attr := e.ip];
    } else if e.addressType == IPV6 {
      attrs := attrs[Ipv6Attr := e.ip];
    }
    var computed := WriteComputed(attrs, EndpointPortAttrs(e.endpointPort), ServicePortAttrs(e.servicePort),
                                  OwnerAttrs(e), StatusAttrs(e), e.attributes);
    attrs := WriteAll(computed, e.attributes);
  }

  method WriteComputed(address: Attributes, endpointPort: Attributes, servicePort: Attributes, owner: Attributes, status: Attributes,
                       ghost rest: Attributes)
    returns (attrs: Attributes)
    ensures attrs + rest == address + (endpointPort + (servicePort + (owner + (status + rest))))
  {
    attrs := address + endpointPort;
    UnionAssociates(address, endpointPort, servicePort + (owner + (status + rest)));
    UnionAssociates(attrs, servicePort, owner + (status + rest));
    attrs := attrs + servicePort;
    UnionAssociates(attrs, owner, status + rest);
    attrs := attrs + owner;
    UnionAssociates(attrs, status, rest);
    attrs := attrs + status;
  }

  lemma UnionAssociates(a: Attributes, b: Attributes, c: Attributes)
    ensures a + (b + c) == (a + b) + c
  {
  }

  // The loop over the endpoint's own attributes.
  method WriteAll(computed: Attributes, own: Attributes) returns (attrs: Attributes)
    ensures attrs == computed + own
  {
    attrs := computed;
    var rest := own.Keys;
    while rest != {}
      invariant rest <= own.Keys && attrs == computed + (own - rest)
      decreases rest
    {
      var key :| key in rest;
      assert own - (rest - {key}) == (own - rest)[key := own[key]];
      attrs, rest := attrs[key := own[key]], rest - {key};
    }
    assert own - {} == own;
  }

  // What the attribute map of one instance can carry.
  predicate Encodable(e: Endpoint) {
    && (e.addressType == IPV4 || e.addressType == IPV6 || (e.addressType == "" && e.ip == ""))
    && 0 <= e.endpointPort.port as int < PORT_LIMIT
    && 0 <= e.servicePort.port as int < PORT_LIMIT
    && e.endpointPort.targetPort == ""
    && forall k :: k in e.attributes ==> k.Custom?
  }

  // ---- Which instances parse, and to what ----

  // An unsigned decimal number below 2^16
  predicate IsPortText(s: string) {
    IsNumeral(s) && ReadNat(s) < PORT_LIMIT
  }

  // The number a text with an optional sign stands for
  predicate StandsFor(s: string, i: int) {
    || (IsNumeral(s) && i == ReadNat(s))
    || (s != [] && s[0] == '+' && IsNumeral(s[1..]) && i == ReadNat(s[1..]))
    || (s != [] && s[0] == '-' && IsNumeral(s[1..]) && i == -(ReadNat(s[1..]) as int))
  }

  predicate IsTrueText(s: string) {
    s == "1" || s == "t" || s == "T" || s == "TRUE" || s == "true" || s == "True"
  }

  predicate IsFalseText(s: string) {
    s == "0" || s == "f" || s == "F" || s == "FALSE" || s == "false" || s == "False"
  }

  const ENDPOINT_PORT_KEYS: set<AttrKey> := {EndpointPortNameAttr, EndpointPortAttr, EndpointProtocolAttr}
  const SERVICE_PORT_KEYS: set<AttrKey> := {ServiceTargetPortAttr, ServicePortNameAttr, ServicePortAttr, ServiceProtocolAttr}
  const OWNER_KEYS: set<AttrKey> := {ServiceTypeAttr, ClusterIdAttr, ClusterSetIdAttr}
  const STATUS_KEYS: set<AttrKey> := {ReadyAttr, ExportCreationAttr}
  const OPTIONAL_KEYS: set<AttrKey> := {Ipv4Attr, Ipv6Attr, HostnameAttr, NodeNameAttr}

  // The twelve attributes an instance must have
  ghost predicate HasRequired(a: Attributes) {
    ENDPOINT_PORT_KEYS + SERVICE_PORT_KEYS + OWNER_KEYS + STATUS_KEYS <= a.Keys
  }

  ghost predicate IsTimestampText(s: string) {
    exists i :: -(INT64_HALF as int) <= i < INT64_HALF && StandsFor(s, i)
  }

  // All of them are there, and the four that are not plain texts are well formed and in range.
  ghost predicate Parseable(a: Attributes) {
    && HasRequired(a)
    && IsPortText(a[EndpointPortAttr]) && IsPortText(a[ServicePortAttr])
    && (IsTrueText(a[ReadyAttr]) || IsFalseText(a[ReadyAttr]))
    && IsTimestampText(a[ExportCreationAttr])
  }

  function ValueOr(a: Attributes, key: AttrKey, otherwise: string): string {
    if key in a then a[key] else otherwise
  }

  // Each field is the value of its attribute, and what is left over is every attribute without a meaning.
  ghost predicate Reads(e: Endpoint, id: string, a: Attributes)
    requires Parseable(a)
  {
    && e.id == id
    && e.ip == (if Ipv4Attr in a then a[Ipv4Attr] else ValueOr(a, Ipv6Attr, ""))
    && e.addressType == (if Ipv4Attr in a then IPV4 else if Ipv6Attr in a then IPV6 else "")
    && e.endpointPort.name == a[EndpointPortNameAttr] && e.endpointPort.protocol == a[EndpointProtocolAttr]
    && e.endpointPort.port as int == ReadNat(a[EndpointPortAttr]) && e.endpointPort.targetPort == ""
    && e.servicePort.name == a[ServicePortNameAttr] && e.servicePort.protocol == a[ServiceProtocolAttr]
    && e.servicePort.port as int == ReadNat(a[ServicePortAttr]) && e.servicePort.targetPort == a[ServiceTargetPortAttr]
    && e.serviceType == a[ServiceTypeAttr] && e.clusterId == a[ClusterIdAttr] && e.clusterSetId == a[ClusterSetIdAttr]
    && e.ready == IsTrueText(a[ReadyAttr])
    && StandsFor(a[ExportCreationAttr], e.serviceExportCreationTimestamp as int)
    && e.hostname == ValueOr(a, HostnameAttr, "") && e.nodename == ValueOr(a, NodeNameAttr, "")
    && e.attributes == a - ENDPOINT_PORT_KEYS - SERVICE_PORT_KEYS - OWNER_KEYS - STATUS_KEYS - OPTIONAL_KEYS
  }

  lemma EndpointPortFound(a: Attributes)
    ensures EndpointPortFromAttr(a).Ok? <==> ENDPOINT_PORT_KEYS <= a.Keys && IsPortText(a[EndpointPortAttr])
    ensures EndpointPortFromAttr(a).Ok? ==>
            var port := Port(a[EndpointPortNameAttr], ReadNat(a[EndpointPortAttr]) as int32, "", a[EndpointProtocolAttr]);
            EndpointPortFromAttr(a) == Ok((port, a - ENDPOINT_PORT_KEYS))
  {
    assert a - {EndpointPortNameAttr} - {EndpointPortAttr} - {EndpointProtocolAttr} == a - ENDPOINT_PORT_KEYS;
  }

  lemma ServicePortFound(a: Attributes)
    ensures ServicePortFromAttr(a).Ok? <==> SERVICE_PORT_KEYS <= a.Keys && IsPortText(a[ServicePortAttr])
    ensures ServicePortFromAttr(a).Ok? ==>
            var port := Port(a[ServicePortNameAttr], ReadNat(a[ServicePortAttr]) as int32, a[ServiceTargetPortAttr], a[ServiceProtocolAttr]);
            ServicePortFromAttr(a) == Ok((port, a - SERVICE_PORT_KEYS))
  {
    assert a - {ServiceTargetPortAttr} - {ServicePortNameAttr} - {ServicePortAttr} - {ServiceProtocolAttr} == a - SERVICE_PORT_KEYS;
  }

  lemma OwnerFound(a: Attributes)
    ensures OwnerFromAttr(a).Ok? <==> OWNER_KEYS <= a.Keys
    ensures OwnerFromAttr(a).Ok? ==>
            OwnerFromAttr(a) == Ok((a[ServiceTypeAttr], a[ClusterIdAttr], a[ClusterSetIdAttr], a - OWNER_KEYS))
  {
    assert a - {ServiceTypeAttr} - {ClusterIdAttr} - {ClusterSetIdAttr} == a - OWNER_KEYS;
  }

  lemma TimestampParses(s: string)
    ensures ParseInt(s, INT64_HALF).Some? <==> IsTimestampText(s)
    ensures ParseInt(s, INT64_HALF).Some? ==> StandsFor(s, ParseInt(s, INT64_HALF).value)
  {
    if ParseInt(s, INT64_HALF).Some? {
      assert StandsFor(s, ParseInt(s, INT64_HALF).value);
    }
    if IsTimestampText(s) {
      var i :| -(INT64_HALF as int) <= i < INT64_HALF && StandsFor(s, i);
      assert s[0] == '+' || s[0] == '-' || IsDigit(s[0]);
    }
  }

  predicate StatusOk(a: Attributes) {
    && ReadyAttr in a && (IsTrueText(a[ReadyAttr]) || IsFalseText(a[ReadyAttr]))
    && ExportCreationAttr in a && ParseInt(a[ExportCreationAttr], INT64_HALF).Some?
  }

  function StatusOf(a: Attributes, rest: Attributes): (bool, int64, string, string, Attributes)
    requires StatusOk(a)
  {
    (IsTrueText(a[ReadyAttr]), ParseInt(a[ExportCreationAttr], INT64_HALF).value as int64,
     ValueOr(a, HostnameAttr, ""), ValueOr(a, NodeNameAttr, ""), rest)
  }

  lemma StatusFound(a: Attributes)
    ensures StatusFromAttr(a).Ok? <==> StatusOk(a)
    ensures StatusOk(a) ==> StatusFromAttr(a) == Ok(StatusOf(a, a - STATUS_KEYS - {HostnameAttr, NodeNameAttr}))
  {
    assert a - {ReadyAttr} - {ExportCreationAttr} - {HostnameAttr} - {NodeNameAttr} == a - STATUS_KEYS - {HostnameAttr, NodeNameAttr};
    if StatusFromAttr(a).Ok? {
      assert StatusFromAttr(a).value.4 == a - STATUS_KEYS - {HostnameAttr, NodeNameAttr};
    }
  }

  // Taking out other attributes does not matter.
  lemma StillThere(a: Attributes, gone: set<AttrKey>, keys: set<AttrKey>)
    requires keys !! gone
    ensures keys <= (a - gone).Keys <==> keys <= a.Keys
    ensures forall k :: k in keys && k in a ==> (a - gone)[k] == a[k]
  {
  }

  lemma KeysApart()
    ensures forall k :: k in ENDPOINT_PORT_KEYS ==> Layer(k) == 1
    ensures forall k :: k in SERVICE_PORT_KEYS ==> Layer(k) == 2
    ensures forall k :: k in OWNER_KEYS ==> Layer(k) == 3
    ensures forall k :: k in STATUS_KEYS + {HostnameAttr, NodeNameAttr} ==> Layer(k) == 4
    ensures forall k :: k in {Ipv4Attr, Ipv6Attr} ==> Layer(k) == 0
  {
  }

  // What the readers find after those before them have taken theirs
  function AfterAddress(a: Attributes): Attributes {
    a - {Ipv4Attr, Ipv6Attr}
  }

  function AfterEndpointPort(a: Attributes): Attributes {
    AfterAddress(a) - ENDPOINT_PORT_KEYS
  }

  function AfterServicePort(a: Attributes): Attributes {
    AfterEndpointPort(a) - SERVICE_PORT_KEYS
  }

  function AfterOwner(a: Attributes): Attributes {
    AfterServicePort(a) - OWNER_KEYS
  }

  lemma EndpointPortRead(a: Attributes)
    ensures EndpointPortFromAttr(AfterAddress(a)).Ok? <==> ENDPOINT_PORT_KEYS <= a.Keys && IsPortText(a[EndpointPortAttr])
    ensures EndpointPortFromAttr(AfterAddress(a)).Ok? ==>
            var port := Port(a[EndpointPortNameAttr], ReadNat(a[EndpointPortAttr]) as int32, "", a[EndpointProtocolAttr]);
            EndpointPortFromAttr(AfterAddress(a)) == Ok((port, AfterEndpointPort(a)))
  {
    KeysApart();
    StillThere(a, {Ipv4Attr, Ipv6Attr}, ENDPOINT_PORT_KEYS);
    EndpointPortFound(AfterAddress(a));
  }

  lemma ServicePortRead(a: Attributes)
    ensures ServicePortFromAttr(AfterEndpointPort(a)).Ok? <==> SERVICE_PORT_KEYS <= a.Keys && IsPortText(a[ServicePortAttr])
    ensures ServicePortFromAttr(AfterEndpointPort(a)).Ok? ==>
            var port := Port(a[ServicePortNameAttr], ReadNat(a[ServicePortAttr]) as int32, a[ServiceTargetPortAttr], a[ServiceProtocolAttr]);
            ServicePortFromAttr(AfterEndpointPort(a)) == Ok((port, AfterServicePort(a)))
  {
    KeysApart();
    StillThere(a, {Ipv4Attr, Ipv6Attr}, SERVICE_PORT_KEYS);
    StillThere(AfterAddress(a), ENDPOINT_PORT_KEYS, SERVICE_PORT_KEYS);
    ServicePortFound(AfterEndpointPort(a));
  }

  lemma OwnerRead(a: Attributes)
    ensures OwnerFromAttr(AfterServicePort(a)).Ok? <==> OWNER_KEYS <= a.Keys
    ensures OwnerFromAttr(AfterServicePort(a)).Ok? ==>
            OwnerFromAttr(AfterServicePort(a)) == Ok((a[ServiceTypeAttr], a[ClusterIdAttr], a[ClusterSetIdAttr], AfterOwner(a)))
  {
    KeysApart();
    StillThere(a, {Ipv4Attr, Ipv6Attr}, OWNER_KEYS);
    StillThere(AfterAddress(a), ENDPOINT_PORT_KEYS, OWNER_KEYS);
    StillThere(AfterEndpointPort(a), SERVICE_PORT_KEYS, OWNER_KEYS);
    OwnerFound(AfterServicePort(a));
  }

  lemma KeptToTheEnd(a: Attributes, key: AttrKey)
    requires key in STATUS_KEYS + {HostnameAttr, NodeNameAttr}
    ensures key in AfterOwner(a) <==> key in a
    ensures key in a ==> AfterOwner(a)[key] == a[key]
  {
    KeysApart();
    StillThere(a, {Ipv4Attr, Ipv6Attr}, {key});
    StillThere(AfterAddress(a), ENDPOINT_PORT_KEYS, {key});
    StillThere(AfterEndpointPort(a), SERVICE_PORT_KEYS, {key});
    StillThere(AfterServicePort(a), OWNER_KEYS, {key});
  }

  lemma StatusRead(a: Attributes)
    ensures StatusFromAttr(AfterOwner(a)).Ok? <==> StatusOk(a)
    ensures StatusOk(a) ==> StatusFromAttr(AfterOwner(a)) == Ok(StatusOf(a, AfterOwner(a) - STATUS_KEYS - {HostnameAttr, NodeNameAttr}))
  {
    StatusFound(AfterOwner(a));
    KeptToTheEnd(a, ReadyAttr);
    KeptToTheEnd(a, ExportCreationAttr);
    KeptToTheEnd(a, HostnameAttr);
    KeptToTheEnd(a, NodeNameAttr);
    assert StatusOk(AfterOwner(a)) <==> StatusOk(a);
  }

  lemma LeftOver(a: Attributes)
    ensures AfterOwner(a) - STATUS_KEYS - {HostnameAttr, NodeNameAttr}
         == a - ENDPOINT_PORT_KEYS - SERVICE_PORT_KEYS - OWNER_KEYS - STATUS_KEYS - OPTIONAL_KEYS
  {
  }

  lemma EachRequired(a: Attributes)
    ensures HasRequired(a) <==>
            ENDPOINT_PORT_KEYS <= a.Keys && SERVICE_PORT_KEYS <= a.Keys && OWNER_KEYS <= a.Keys && ReadyAttr in a && ExportCreationAttr in a
  {
    var three := ENDPOINT_PORT_KEYS + SERVICE_PORT_KEYS + OWNER_KEYS;
    assert HasRequired(a) <==> three <= a.Keys && STATUS_KEYS <= a.Keys;
    assert three <= a.Keys <==> ENDPOINT_PORT_KEYS <= a.Keys && SERVICE_PORT_KEYS <= a.Keys && OWNER_KEYS <= a.Keys;
  }

  lemma RequiredIff(a: Attributes)
    ensures Parseable(a) <==>
            && (ENDPOINT_PORT_KEYS <= a.Keys && IsPortText(a[EndpointPortAttr]))
            && (SERVICE_PORT_KEYS <= a.Keys && IsPortText(a[ServicePortAttr]))
            && OWNER_KEYS <= a.Keys && StatusOk(a)
  {
    EachRequired(a);
    if ExportCreationAttr in a { TimestampParses(a[ExportCreationAttr]); }
  }

  // The endpoint that a parseable instance gives
  function EndpointOf(id: string, a: Attributes): Endpoint
    requires ENDPOINT_PORT_KEYS <= a.Keys && IsPortText(a[EndpointPortAttr])
    requires SERVICE_PORT_KEYS <= a.Keys && IsPortText(a[ServicePortAttr])
    requires OWNER_KEYS <= a.Keys && StatusOk(a)
  {
    var (ip, addressType, _) := AddressFromAttr(a);
    var (ready, created, hostname, nodename, rest) := StatusOf(a, AfterOwner(a) - STATUS_KEYS - {HostnameAttr, NodeNameAttr});
    Endpoint(id, ip, addressType,
             Port(a[EndpointPortNameAttr], ReadNat(a[EndpointPortAttr]) as int32, "", a[EndpointProtocolAttr]),
             Port(a[ServicePortNameAttr], ReadNat(a[ServicePortAttr]) as int32, a[ServiceTargetPortAttr], a[ServiceProtocolAttr]),
             a[ClusterIdAttr], a[ClusterSetIdAttr], a[ServiceTypeAttr], created, ready, hostname, nodename, rest)
  }

  lemma AllReadersOk(id: string, a: Attributes)
    requires NewEndpointFromInstance(id, a).Ok?
    ensures EndpointPortFromAttr(AfterAddress(a)).Ok?
    ensures ServicePortFromAttr(EndpointPortFromAttr(AfterAddress(a)).value.1).Ok?
    ensures var a3 := ServicePortFromAttr(EndpointPortFromAttr(AfterAddress(a)).value.1).value.1;
            OwnerFromAttr(a3).Ok? && StatusFromAttr(OwnerFromAttr(a3).value.3).Ok?
  {
  }

  lemma ParsedIsParseable(id: string, a: Attributes)
    requires NewEndpointFromInstance(id, a).Ok?
    ensures Parseable(a)
  {
    AllReadersOk(id, a);
    EndpointPortRead(a);
    ServicePortRead(a);
    OwnerRead(a);
    StatusRead(a);
    RequiredIff(a);
  }

  lemma AddressGives(id: string, a: Attributes)
    requires Parseable(a) && StatusOk(a)
    ensures EndpointOf(id, a).id == id
    ensures AddressFromAttr(a) == (EndpointOf(id, a).ip, EndpointOf(id, a).addressType, AfterAddress(a))
  {
    AddressTaken(a);
  }

  lemma AddressTaken(a: Attributes)
    ensures AddressFromAttr(a).2 == AfterAddress(a)
  {
  }

  lemma PortsGive(id: string, a: Attributes)
    requires Parseable(a) && StatusOk(a)
    ensures EndpointPortFromAttr(AfterAddress(a)) == Ok((EndpointOf(id, a).endpointPort, AfterEndpointPort(a)))
    ensures ServicePortFromAttr(AfterEndpointPort(a)) == Ok((EndpointOf(id, a).servicePort, AfterServicePort(a)))
  {
    EndpointPortRead(a);
    ServicePortRead(a);
  }

  lemma TailGives(id: string, a: Attributes)
    requires Parseable(a) && StatusOk(a)
    ensures var e := EndpointOf(id, a);
            && OwnerFromAttr(AfterServicePort(a)) == Ok((e.serviceType, e.clusterId, e.clusterSetId, AfterOwner(a)))
            && StatusFromAttr(AfterOwner(a)) == Ok((e.ready, e.serviceExportCreationTimestamp, e.hostname, e.nodename, e.attributes))
  {
    OwnerRead(a);
    StatusRead(a);
  }

  lemma ParseableParses(id: string, a: Attributes)
    requires Parseable(a) && StatusOk(a)
    ensures NewEndpointFromInstance(id, a) == Ok(EndpointOf(id, a))
  {
    AddressGives(id, a);
    PortsGive(id, a);
    TailGives(id, a);
    ReadersCompose(a, AfterAddress(a), AfterEndpointPort(a), AfterServicePort(a), AfterOwner(a), EndpointOf(id, a));
  }

  lemma EndpointReads(id: string, a: Attributes)
    requires Parseable(a) && StatusOk(a)
    ensures Reads(EndpointOf(id, a), id, a)
  {
    LeftOver(a);
    TimestampParses(a[ExportCreationAttr]);
  }

  // An instance parses exactly when it is complete and well formed, and then says what its attributes say.
  lemma ParsesIff(id: string, a: Attributes)
    ensures NewEndpointFromInstance(id, a).Ok? <==> Parseable(a)
    ensures Parseable(a) ==> Reads(NewEndpointFromInstance(id, a).value, id, a)
  {
    if NewEndpointFromInstance(id, a).Ok? { ParsedIsParseable(id, a); }
    if Parseable(a) {
      RequiredIff(a);
      ParseableParses(id, a);
      EndpointReads(id, a);
    }
  }

  // Whatever parses has in-range ports, a known address type, and only foreign keys left over.
  lemma ParsedIsEncodable(id: string, attributes: Attributes)
    requires NewEndpointFromInstance(id, attributes).Ok?
    ensures Encodable(NewEndpointFromInstance(id, attributes).value)
    ensures NewEndpointFromInstance(id, attributes).value.id == id
  {
    var (ip, addressType, a1) := AddressFromAttr(attributes);
    EndpointPortInRange(a1);
    var a2 := EndpointPortFromAttr(a1).value.1;
    ServicePortInRange(a2);
    TailTakesReserved(ServicePortFromAttr(a2).value.1);
  }

  lemma EndpointPortInRange(attributes: Attributes)
    requires EndpointPortFromAttr(attributes).Ok?
    ensures var (port, rest) := EndpointPortFromAttr(attributes).value;
            && 0 <= port.port as int < PORT_LIMIT && port.targetPort == ""
            && rest.Keys == attributes.Keys - {EndpointPortNameAttr, EndpointPortAttr, EndpointProtocolAttr}
  {
  }

  lemma ServicePortInRange(attributes: Attributes)
    requires ServicePortFromAttr(attributes).Ok?
    ensures var (port, rest) := ServicePortFromAttr(attributes).value;
            && 0 <= port.port as int < PORT_LIMIT
            && rest.Keys == attributes.Keys - {ServiceTargetPortAttr, ServicePortNameAttr, ServicePortAttr, ServiceProtocolAttr}
  {
  }

  lemma TailTakesReserved(attributes: Attributes)
    requires OwnerFromAttr(attributes).Ok? && StatusFromAttr(OwnerFromAttr(attributes).value.3).Ok?
    ensures StatusFromAttr(OwnerFromAttr(attributes).value.3).value.4.Keys
         == attributes.Keys - {ServiceTypeAttr, ClusterIdAttr, ClusterSetIdAttr,
                               ReadyAttr, ExportCreationAttr, HostnameAttr, NodeNameAttr}
  {
    OwnerTakes(attributes);
    StatusTakes(OwnerFromAttr(attributes).value.3);
  }

  lemma OwnerTakes(attributes: Attributes)
    requires OwnerFromAttr(attributes).Ok?
    ensures OwnerFromAttr(attributes).value.3.Keys == attributes.Keys - {ServiceTypeAttr, ClusterIdAttr, ClusterSetIdAttr}
  {
  }

  lemma StatusTakes(attributes: Attributes)
    requires StatusFromAttr(attributes).Ok?
    ensures StatusFromAttr(attributes).value.4.Keys == attributes.Keys - {ReadyAttr, ExportCreationAttr, HostnameAttr, NodeNameAttr}
  {
  }

  // The order in which the readers take the keys.
  function Layer(k: AttrKey): nat {
    match k
    case Ipv4Attr | Ipv6Attr => 0
    case EndpointPortNameAttr | EndpointPortAttr | EndpointProtocolAttr => 1
    case ServiceTargetPortAttr | ServicePortNameAttr | ServicePortAttr | ServiceProtocolAttr => 2
    case ServiceTypeAttr | ClusterIdAttr | ClusterSetIdAttr => 3
    case ReadyAttr | ExportCreationAttr | HostnameAttr | NodeNameAttr => 4
    case Custom(_) => 5
  }

  ghost predicate From(attributes: Attributes, layer: nat) {
    forall k :: k in attributes ==> Layer(k) >= layer
  }

  lemma FromUnion(group: Attributes, rest: Attributes, layer: nat)
    requires From(rest, layer + 1) && forall k :: k in group ==> Layer(k) == layer
    ensures From(group + rest, layer)
  {
  }

  // Taking out a group's four keys, one by one, leaves the rest.
  lemma TakeFour<K, V>(group: map<K, V>, rest: map<K, V>, k1: K, k2: K, k3: K, k4: K)
    requires group.Keys == {k1, k2, k3, k4} && group.Keys !! rest.Keys
    ensures group + rest - {k1} - {k2} - {k3} - {k4} == rest
  {
  }

  // Each reader, applied to the attributes it needs plus any rest without them, takes out exactly those.
  lemma AddressReads(e: Endpoint, rest: Attributes)
    requires Encodable(e) && From(rest, 1)
    ensures AddressFromAttr(AddressAttr(e) + rest) == (e.ip, e.addressType, rest)
  {
    assert AddressAttr(e) + rest - {Ipv4Attr, Ipv6Attr} == rest;
  }

  lemma EndpointPortReads(p: Port, rest: Attributes)
    requires 0 <= p.port as int < PORT_LIMIT && p.targetPort == ""
    requires From(rest, 2)
    ensures EndpointPortFromAttr(EndpointPortAttrs(p) + rest) == Ok((p, rest))
  {
    ParseUintOfFormat(p.port as int, PORT_LIMIT);
    var attributes := EndpointPortAttrs(p) + rest;
    assert attributes - {EndpointPortNameAttr} - {EndpointPortAttr} - {EndpointProtocolAttr} == rest;
  }

  lemma ServicePortReads(p: Port, rest: Attributes)
    requires 0 <= p.port as int < PORT_LIMIT
    requires From(rest, 3)
    ensures ServicePortFromAttr(ServicePortAttrs(p) + rest) == Ok((p, rest))
  {
    ParseUintOfFormat(p.port as int, PORT_LIMIT);
    ServicePortTakesFour(ServicePortAttrs(p) + rest, p.targetPort, p.name, FormatInt(p.port as int), p.protocol);
    TakeFour(ServicePortAttrs(p), rest, ServiceTargetPortAttr, ServicePortNameAttr, ServicePortAttr, ServiceProtocolAttr);
  }

  lemma ServicePortTakesFour(attributes: Attributes, targetPort: string, name: string, port: string, protocol: string)
    requires ServiceTargetPortAttr in attributes && attributes[ServiceTargetPortAttr] == targetPort
    requires ServicePortNameAttr in attributes && attributes[ServicePortNameAttr] == name
    requires ServicePortAttr in attributes && attributes[ServicePortAttr] == port && ParseUint(port, PORT_LIMIT).Some?
    requires ServiceProtocolAttr in attributes && attributes[ServiceProtocolAttr] == protocol
    ensures ServicePortFromAttr(attributes)
         == Ok((Port(name, ParseUint(port, PORT_LIMIT).value as int32, targetPort, protocol),
                attributes - {ServiceTargetPortAttr} - {ServicePortNameAttr} - {ServicePortAttr} - {ServiceProtocolAttr}))
  {
  }

  lemma OwnerReads(e: Endpoint, rest: Attributes)
    requires From(rest, 4)
    ensures OwnerFromAttr(OwnerAttrs(e) + rest) == Ok((e.serviceType, e.clusterId, e.clusterSetId, rest))
  {
    assert OwnerAttrs(e) + rest - {ServiceTypeAttr} - {ClusterIdAttr} - {ClusterSetIdAttr} == rest;
  }

  lemma StatusReads(e: Endpoint, rest: Attributes)
    requires From(rest, 5)
    ensures StatusFromAttr(StatusAttrs(e) + rest)
         == Ok((e.ready, e.serviceExportCreationTimestamp, e.hostname, e.nodename, rest))
  {
    ParseIntOfFormat(e.serviceExportCreationTimestamp as int, INT64_HALF);
    var created := FormatInt(e.serviceExportCreationTimestamp as int);
    StatusTakesFour(StatusAttrs(e) + rest, FormatBool(e.ready), created, e.hostname, e.nodename);
    TakeFour(StatusAttrs(e), rest, ReadyAttr, ExportCreationAttr, HostnameAttr, NodeNameAttr);
  }

  lemma StatusTakesFour(attributes: Attributes, ready: string, created: string, hostname: string, nodename: string)
    requires ReadyAttr in attributes && attributes[ReadyAttr] == ready && ParseBool(ready).Some?
    requires ExportCreationAttr in attributes && attributes[ExportCreationAttr] == created
    requires ParseInt(created, INT64_HALF).Some?
    requires HostnameAttr in attributes && attributes[HostnameAttr] == hostname
    requires NodeNameAttr in attributes && attributes[NodeNameAttr] == nodename
    ensures StatusFromAttr(attributes)
         == Ok((ParseBool(ready).value, ParseInt(created, INT64_HALF).value as int64, hostname, nodename,
                attributes - {ReadyAttr} - {ExportCreationAttr} - {HostnameAttr} - {NodeNameAttr}))
  {
  }

  // One reader after the other, each handing the rest to the next.
  lemma ReadersCompose(a0: Attributes, a1: Attributes, a2: Attributes, a3: Attributes, a4: Attributes, e: Endpoint)
    requires AddressFromAttr(a0) == (e.ip, e.addressType, a1)
    requires EndpointPortFromAttr(a1) == Ok((e.endpointPort, a2)) && ServicePortFromAttr(a2) == Ok((e.servicePort, a3))
    requires OwnerFromAttr(a3) == Ok((e.serviceType, e.clusterId, e.clusterSetId, a4))
    requires StatusFromAttr(a4) == Ok((e.ready, e.serviceExportCreationTimestamp, e.hostname, e.nodename, e.attributes))
    ensures NewEndpointFromInstance(e.id, a0) == Ok(e)
  {
  }

  lemma StatusParses(e: Endpoint)
    requires Encodable(e)
    ensures From(StatusOn(e), 4)
    ensures StatusFromAttr(StatusOn(e)) == Ok((e.ready, e.serviceExportCreationTimestamp, e.hostname, e.nodename, e.attributes))
  {
    FromUnion(StatusAttrs(e), e.attributes, 4);
    StatusReads(e, e.attributes);
  }

  lemma OwnerParses(e: Endpoint)
    requires From(StatusOn(e), 4)
    ensures From(OwnerOn(e), 3)
    ensures OwnerFromAttr(OwnerOn(e)) == Ok((e.serviceType, e.clusterId, e.clusterSetId, StatusOn(e)))
  {
    FromUnion(OwnerAttrs(e), StatusOn(e), 3);
    OwnerReads(e, StatusOn(e));
  }

  lemma ServicePortLayer(p: Port)
    ensures forall k :: k in ServicePortAttrs(p) ==> Layer(k) == 2
  {
  }

  lemma ServicePortParses(e: Endpoint)
    requires Encodable(e) && From(OwnerOn(e), 3)
    ensures From(ServicePortOn(e), 2)
    ensures ServicePortFromAttr(ServicePortOn(e)) == Ok((e.servicePort, OwnerOn(e)))
  {
    ServicePortLayer(e.servicePort);
    FromUnion(ServicePortAttrs(e.servicePort), OwnerOn(e), 2);
    ServicePortReads(e.servicePort, OwnerOn(e));
  }

  lemma EndpointPortParses(e: Endpoint)
    requires Encodable(e) && From(ServicePortOn(e), 2)
    ensures From(EndpointPortOn(e), 1)
    ensures EndpointPortFromAttr(EndpointPortOn(e)) == Ok((e.endpointPort, ServicePortOn(e)))
  {
    FromUnion(EndpointPortAttrs(e.endpointPort), ServicePortOn(e), 1);
    EndpointPortReads(e.endpointPort, ServicePortOn(e));
  }

  lemma PrintedParses(e: Endpoint)
    requires Encodable(e)
    ensures NewEndpointFromInstance(e.id, GetCloudMapAttributes(e)) == Ok(e)
  {
    StatusParses(e);
    OwnerParses(e);
    ServicePortParses(e);
    EndpointPortParses(e);
    AddressReads(e, EndpointPortOn(e));
    ReadersCompose(GetCloudMapAttributes(e), EndpointPortOn(e), ServicePortOn(e), OwnerOn(e), StatusOn(e), e);
  }

  // Round trip: reading back an instance gives the endpoint that was registered exactly when it is encodable.
  lemma RoundTripExact(e: Endpoint)
    ensures NewEndpointFromInstance(e.id, GetCloudMapAttributes(e)) == Ok(e) <==> Encodable(e)
  {
    if Encodable(e) {
      PrintedParses(e);
    } else if NewEndpointFromInstance(e.id, GetCloudMapAttributes(e)) == Ok(e) {
      ParsedIsEncodable(e.id, GetCloudMapAttributes(e));
    }
  }
}
