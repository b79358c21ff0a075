// The entities of pkg/model/types.go.
module Model {
  import opened Common
  import opened Decimal

  datatype Port = Port(name: string, port: int32, targetPort: string, protocol: string) {
    // "<protocol>:<port>"
    function GetID(): string {
      protocol + [':'] + FormatInt(port as int)
    }
  }

  newtype int32 = i: int | -0x8000_0000 <= i < 0x8000_0000
  newtype int64 = i: int | -0x8000_0000_0000_0000 <= i < 0x8000_0000_0000_0000

  // discovery.AddressType and model.ServiceType are strings in the source.
  const IPV4 := "IPv4"
  const IPV6 := "IPv6"

  datatype Endpoint = Endpoint(
    id: string,
    ip: string,
    addressType: string,
    endpointPort: Port,
    servicePort: Port,
    clusterId: string,
    clusterSetId: string,
    serviceType: string,
    serviceExportCreationTimestamp: int64,
    ready: bool,
    hostname: string,
    nodename: string,
    attributes: map<AttrKey, string>)

  // The keys of an instance's attribute map: the sixteen names the codec knows are constructors, every other
  // name is Custom. A custom key never spells one of the sixteen, so keys and names correspond one to one.
  datatype RawKey =
    | Ipv4Attr | Ipv6Attr
    | EndpointPortAttr | EndpointPortNameAttr | EndpointProtocolAttr
    | ReadyAttr | HostnameAttr | NodeNameAttr
    | ClusterIdAttr | ClusterSetIdAttr
    | ServicePortNameAttr | ServicePortAttr | ServiceTargetPortAttr | ServiceProtocolAttr | ServiceTypeAttr
    | ExportCreationAttr
    | Custom(name: string)

  type AttrKey = k: RawKey | k.Custom? ==> FindName(k.name, RESERVED) == RESERVED
    witness Ipv4Attr

  const RESERVED: nat := 16

  // The one attribute the export adds itself.
  const K8S_VERSION_ATTR := "K8S_CONTROLLER"

  function ReservedName(i: nat): string {
    match i
    case 0 => "AWS_INSTANCE_IPV4"
    case 1 => "AWS_INSTANCE_IPV6"
    case 2 => "AWS_INSTANCE_PORT"
    case 3 => "ENDPOINT_PORT_NAME"
    case 4 => "ENDPOINT_PROTOCOL"
    case 5 => "READY"
    case 6 => "HOSTNAME"
    case 7 => "NODENAME"
    case 8 => "CLUSTER_ID"
    case 9 => "CLUSTERSET_ID"
    case 10 => "SERVICE_PORT_NAME"
    case 11 => "SERVICE_PORT"
    case 12 => "SERVICE_TARGET_PORT"
    case 13 => "SERVICE_PROTOCOL"
    case 14 => "SERVICE_TYPE"
    case _ => "SERVICE_EXPORT_CREATION_TIMESTAMP"
  }

  function ReservedKey(i: nat): RawKey {
    match i
    case 0 => Ipv4Attr
    case 1 => Ipv6Attr
    case 2 => EndpointPortAttr
    case 3 => EndpointPortNameAttr
    case 4 => EndpointProtocolAttr
    case 5 => ReadyAttr
    case 6 => HostnameAttr
    case 7 => NodeNameAttr
    case 8 => ClusterIdAttr
    case 9 => ClusterSetIdAttr
    case 10 => ServicePortNameAttr
    case 11 => ServicePortAttr
    case 12 => ServiceTargetPortAttr
    case 13 => ServiceProtocolAttr
    case 14 => ServiceTypeAttr
    case _ => ExportCreationAttr
  }

  function KeyIndex(k: RawKey): (i: nat)
    ensures !k.Custom? ==> i < RESERVED && ReservedKey(i) == k
  {
    match k
    case Ipv4Attr => 0
    case Ipv6Attr => 1
    case EndpointPortAttr => 2
    case EndpointPortNameAttr => 3
    case EndpointProtocolAttr => 4
    case ReadyAttr => 5
    case HostnameAttr => 6
    case NodeNameAttr => 7
    case ClusterIdAttr => 8
    case ClusterSetIdAttr => 9
    case ServicePortNameAttr => 10
    case ServicePortAttr => 11
    case ServiceTargetPortAttr => 12
    case ServiceProtocolAttr => 13
    case ServiceTypeAttr => 14
    case ExportCreationAttr => 15
    case Custom(_) => RESERVED
  }

  // The place of a text among the first n reserved names, or RESERVED.
  function FindName(s: string, n: nat): nat
    requires n <= RESERVED
  {
    if n == 0 then RESERVED
    else if s == ReservedName(n - 1) then n - 1
    else FindName(s, n - 1)
  }

  function KeyName(k: RawKey): string {
    if k.Custom? then k.name else ReservedName(KeyIndex(k))
  }

  function KeyOf(s: string): RawKey {
    var i := FindName(s, RESERVED);
    if i < RESERVED then ReservedKey(i) else Custom(s)
  }

  // The names under which the clusters exchange what they export
  lemma WireNames()
    ensures KeyName(Ipv4Attr) == "AWS_INSTANCE_IPV4" && KeyName(Ipv6Attr) == "AWS_INSTANCE_IPV6"
    ensures KeyName(EndpointPortAttr) == "AWS_INSTANCE_PORT" && KeyName(EndpointPortNameAttr) == "ENDPOINT_PORT_NAME"
    ensures KeyName(EndpointProtocolAttr) == "ENDPOINT_PROTOCOL" && KeyName(ReadyAttr) == "READY"
    ensures KeyName(HostnameAttr) == "HOSTNAME" && KeyName(NodeNameAttr) == "NODENAME"
    ensures KeyName(ClusterIdAttr) == "CLUSTER_ID" && KeyName(ClusterSetIdAttr) == "CLUSTERSET_ID"
    ensures KeyName(ServicePortNameAttr) == "SERVICE_PORT_NAME" && KeyName(ServicePortAttr) == "SERVICE_PORT"
    ensures KeyName(ServiceTargetPortAttr) == "SERVICE_TARGET_PORT" && KeyName(ServiceProtocolAttr) == "SERVICE_PROTOCOL"
    ensures KeyName(ServiceTypeAttr) == "SERVICE_TYPE" && KeyName(ExportCreationAttr) == "SERVICE_EXPORT_CREATION_TIMESTAMP"
  {
  }

  // Keys and names are in bijection.
  lemma KeysAreNames(k: AttrKey, s: string)
    ensures KeyName(k) == s <==> KeyOf(s) == k
  {
    FoundName(s, RESERVED);
    if !k.Custom? && KeyName(k) == s { NameFound(KeyIndex(k), RESERVED); }
  }

  lemma {:induction false} FoundName(s: string, n: nat)
    requires n <= RESERVED
    ensures FindName(s, n) < n || FindName(s, n) == RESERVED
    ensures FindName(s, n) < n ==> ReservedName(FindName(s, n)) == s
  {
    if n > 0 {
      FoundName(s, n - 1);
    }
  }

  // The sixteen names are distinct.
  lemma {:induction false} NameFound(i: nat, n: nat)
    requires i < n <= RESERVED
    ensures FindName(ReservedName(i), n) == i
  {
    if i < n - 1 {
      NamesDiffer(i, n - 1);
      NameFound(i, n - 1);
    }
  }

  lemma NamesDiffer(i: nat, j: nat)
    requires i < j < RESERVED
    ensures ReservedName(i) != ReservedName(j)
  {
  }

  lemma {:induction false} NotFound(s: string, n: nat)
    requires n <= RESERVED && forall i :: 0 <= i < n ==> s != ReservedName(i)
    ensures FindName(s, n) == RESERVED
  {
    if n > 0 {
      NotFound(s, n - 1);
    }
  }

  lemma VersionIsCustom()
    ensures FindName(K8S_VERSION_ATTR, RESERVED) == RESERVED
  {
    assert forall i: nat :: ReservedName(i) != K8S_VERSION_ATTR by {
      forall i: nat ensures ReservedName(i) != K8S_VERSION_ATTR { VersionDiffers(i); }
    }
    NotFound(K8S_VERSION_ATTR, RESERVED);
  }

  lemma VersionDiffers(i: nat)
    ensures ReservedName(i) != K8S_VERSION_ATTR
  {
    assert K8S_VERSION_ATTR[1] == '8';
  }

  // The protocol may contain anything, but the number after the last colon is the port.
  lemma {:induction false} PortIdInjective(p: Port, q: Port)
    requires p.GetID() == q.GetID()
    ensures p.protocol == q.protocol && p.port == q.port
  {
    var m, n := p.port as int, q.port as int;
    NoMarkInNumber(m, ':');
    NoMarkInNumber(n, ':');
    SplitAtMark(p.protocol, FormatInt(m), q.protocol, FormatInt(n), ':');
    FormatIntInjective(m, n);
  }

  // Printed integers contain neither ':' nor (after the sign) '-'.
  lemma NoMarkInNumber(i: int, mark: char)
    requires !IsDigit(mark) && (mark == '-' ==> i >= 0)
    ensures mark !in FormatInt(i)
  {
    FormatThenRead(if i < 0 then -i else i);
  }

  // If a mark occurs in neither tail, the last mark splits the text in one way only.
  lemma SplitAtMark(a: string, x: string, b: string, y: string, mark: char)
    requires mark !in x && mark !in y
    requires a + [mark] + x == b + [mark] + y
    ensures a == b && x == y
  {
    var s := a + [mark] + x;
    assert s[|a|] == mark && s[|b|] == (b + [mark] + y)[|b|] == mark;
    assert forall k :: |a| < k < |s| ==> s[k] == x[k - |a| - 1];
    assert forall k :: |b| < k < |s| ==> s[k] == y[k - |b| - 1];
    assert s[..|a|] == a && s[..|b|] == b;
    assert s[|a| + 1..] == x && s[|b| + 1..] == y;
  }
}
