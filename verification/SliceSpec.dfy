// What EndpointSlicePlan.CalculateChanges computes, on values: the state of the plan after trimming,
// and the step one round of the outer fill loop takes. Slices are tracked by their index in Current.
module SliceSpec {
  import opened Common
  import opened Model
  import opened Ports

  datatype ObjectRef = ObjectRef(kind: string, namespace_: string, name: string, uid: string, resourceVersion: string)

  // The fields of v1.Service the planner reads.
  datatype ServiceRef = ServiceRef(namespace_: string, name: string, uid: string, resourceVersion: string)

  // discovery.Endpoint. An endpoint has at least one address; the first one is its key.
  datatype SliceEndpoint = SliceEndpoint(
    address: string, moreAddresses: seq<string>, ready: Option<bool>,
    hostname: Option<string>, nodeName: Option<string>, targetRef: Option<ObjectRef>)

  // The part of a discovery.EndpointSlice the planner reads and writes.
  datatype SliceVal = SliceVal(endpoints: seq<SliceEndpoint>, ports: seq<EndpointPort>)

  function CreateEndpointForSlice(svc: ServiceRef, e: Endpoint): SliceEndpoint {
    SliceEndpoint(e.ip, [], Some(e.ready),
                  if e.hostname != "" then Some(e.hostname) else None,
                  if e.nodename != "" then Some(e.nodename) else None,
                  Some(ObjectRef("Service", svc.namespace_, svc.name, svc.uid, svc.resourceVersion)))
  }

  // What the planner works from: the service, the desired endpoint of each IP (the last one given for it),
  // the list of desired ports and the effective maximum.
  datatype Config = Config(service: ServiceRef, want: map<string, Endpoint>, ports: seq<Port>, max: int)

  function DesiredByIp(desired: seq<Endpoint>): (m: map<string, Endpoint>)
    ensures forall ip :: ip in m ==> m[ip].ip == ip && m[ip] in desired
    ensures forall e :: e in desired ==> e.ip in m
  {
    if desired == [] then map[] else
      var last := desired[|desired| - 1];
      DesiredByIp(desired[..|desired| - 1])[last.ip := last]
  }

  ghost predicate ValidConfig(cfg: Config) {
    cfg.max >= 1 && forall ip :: ip in cfg.want ==> cfg.want[ip].ip == ip
  }

  datatype Tracked = Tracked(origin: nat, slice: SliceVal)

  // EndpointSliceChanges, and the desired IPs not placed yet.
  datatype PlanState = PlanState(
    update: seq<Tracked>, delete: seq<Tracked>, unmodified: seq<Tracked>, create: seq<SliceVal>, todo: set<string>)

  function AddressSet(es: seq<SliceEndpoint>): set<string> {
    set e | e in es :: e.address
  }

  predicate PortsMatch(cfg: Config, v: SliceVal) {
    PortsEqualIgnoreOrder(cfg.ports, ToPorts(v.ports))
  }

  // The records one slice keeps when `wanted` are the IPs not claimed yet: the first record of each wanted IP.
  function Kept(es: seq<SliceEndpoint>, wanted: set<string>): seq<SliceEndpoint> {
    if es == [] then [] else
      var init, last := es[..|es| - 1], es[|es| - 1];
      if last.address in wanted && last.address !in AddressSet(init) then Kept(init, wanted) + [last]
      else Kept(init, wanted)
  }

  function TrimOne(cfg: Config, st: PlanState, origin: nat, v: SliceVal): PlanState {
    var kept := Kept(v.endpoints, st.todo);
    var st := st.(todo := st.todo - AddressSet(v.endpoints));
    if kept == [] then
      st.(delete := st.delete + [Tracked(origin, v)])
    else if PortsMatch(cfg, v) && |kept| == |v.endpoints| then
      st.(unmodified := st.unmodified + [Tracked(origin, v)])
    else
      var ports := if PortsMatch(cfg, v) then v.ports else ToEndpointPorts(cfg.ports);
      st.(update := st.update + [Tracked(origin, SliceVal(kept, ports))])
  }

  // trimSlices
  function Trim(cfg: Config, cur: seq<SliceVal>): PlanState {
    if cur == [] then PlanState([], [], [], [], cfg.want.Keys)
    else TrimOne(cfg, Trim(cfg, cur[..|cur| - 1]), |cur| - 1, cur[|cur| - 1])
  }

  // Index of the first slice with at most `limit` endpoints, or |ts| when there is none.
  function FirstShort(ts: seq<Tracked>, limit: int): (i: nat)
    ensures i <= |ts|
    ensures i < |ts| ==> |ts[i].slice.endpoints| <= limit
    ensures forall j :: 0 <= j < i ==> |ts[j].slice.endpoints| > limit
  {
    if ts == [] then 0
    else if |ts[0].slice.endpoints| <= limit then 0
    else 1 + FirstShort(ts[1..], limit)
  }

  // Where the slice with room is after getOrCreateUnfilledEndpointSlice.
  datatype Target = InUpdate(index: nat) | InCreate(index: nat)

  ghost predicate HasTarget(st: PlanState, t: Target) {
    match t
    case InUpdate(i) => i < |st.update|
    case InCreate(i) => i < |st.create|
  }

  function TargetSlice(st: PlanState, t: Target): SliceVal
    requires HasTarget(st, t)
  {
    match t
    case InUpdate(i) => st.update[i].slice
    case InCreate(i) => st.create[i]
  }

  function SetTarget(st: PlanState, t: Target, v: SliceVal): PlanState
    requires HasTarget(st, t)
  {
    match t
    case InUpdate(i) => st.(update := st.update[i := st.update[i].(slice := v)])
    case InCreate(i) => st.(create := st.create[i := v])
  }

  datatype Opened = Opened(st: PlanState, target: Target, needsPortUpdate: bool)

  // The first slice marked for deletion, emptied, becomes the last updated one.
  function Reuse(st: PlanState): PlanState
    requires st.delete != []
  {
    var reused := Tracked(st.delete[0].origin, st.delete[0].slice.(endpoints := []));
    st.(update := st.update + [reused], delete := st.delete[1..])
  }

  // Unmodified slice n becomes the last updated one.
  function Absorb(st: PlanState, n: nat): PlanState
    requires n < |st.unmodified|
  {
    st.(update := st.update + [st.unmodified[n]], unmodified := st.unmodified[..n] + st.unmodified[n + 1..])
  }

  function AddNew(st: PlanState): PlanState {
    st.(create := st.create + [SliceVal([], [])])
  }

  // getOrCreateUnfilledEndpointSlice, with requiredCapacity == |st.todo|
  function Open(cfg: Config, st: PlanState): (o: Opened)
    ensures HasTarget(o.st, o.target) && o.st.todo == st.todo
  {
    var u := FirstShort(st.update, cfg.max - 1);
    var n := FirstShort(st.unmodified, cfg.max - |st.todo|);
    if u < |st.update| then Opened(st, InUpdate(u), false)
    else if st.delete != [] then Opened(Reuse(st), InUpdate(|st.update|), true)
    else if n < |st.unmodified| then Opened(Absorb(st, n), InUpdate(|st.update|), false)
    else Opened(AddNew(st), InCreate(|st.create|), true)
  }

  function Records(cfg: Config, chunk: seq<string>): seq<SliceEndpoint>
    requires forall ip :: ip in chunk ==> ip in cfg.want
  {
    seq(|chunk|, i requires 0 <= i < |chunk| => CreateEndpointForSlice(cfg.service, cfg.want[chunk[i]]))
  }

  ghost predicate NoDuplicates<T>(s: seq<T>) {
    forall i, j :: 0 <= i < j < |s| ==> s[i] != s[j]
  }

  function ToSet(s: seq<string>): set<string> {
    set x | x in s
  }

  function Min(a: int, b: int): int {
    if a < b then a else b
  }

  // The IPs one round of the outer loop may take: any distinct unplaced ones, in any order,
  // as many as fit in the opened slice.
  ghost predicate IsChunk(cfg: Config, st: PlanState, chunk: seq<string>) {
    var o := Open(cfg, st);
    && st.todo != {}
    && st.todo <= cfg.want.Keys
    && NoDuplicates(chunk)
    && (forall ip :: ip in chunk ==> ip in st.todo)
    && |chunk| == Min(cfg.max - |TargetSlice(o.st, o.target).endpoints|, |st.todo|)
  }

  // One round of the outer loop of CalculateChanges.
  function Step(cfg: Config, st: PlanState, chunk: seq<string>): PlanState
    requires IsChunk(cfg, st, chunk)
  {
    var o := Open(cfg, st);
    var v := TargetSlice(o.st, o.target);
    var ports := if o.needsPortUpdate then ToEndpointPorts(cfg.ports) else v.ports;
    SetTarget(o.st, o.target, SliceVal(v.endpoints + Records(cfg, chunk), ports)).(todo := st.todo - ToSet(chunk))
  }

  // A run of the outer loop: each round takes one chunk.
  ghost predicate IsRun(cfg: Config, cur: seq<SliceVal>, chunks: seq<seq<string>>)
    decreases |chunks|, 0
  {
    chunks == [] ||
    (var init := chunks[..|chunks| - 1];
     IsRun(cfg, cur, init) && IsChunk(cfg, Run(cfg, cur, init), chunks[|chunks| - 1]))
  }

  ghost function Run(cfg: Config, cur: seq<SliceVal>, chunks: seq<seq<string>>): PlanState
    requires IsRun(cfg, cur, chunks)
    decreases |chunks|, 1
  {
    if chunks == [] then Trim(cfg, cur) else
      var init := chunks[..|chunks| - 1];
      Step(cfg, Run(cfg, cur, init), chunks[|chunks| - 1])
  }

  // A run that has placed every desired IP: what CalculateChanges can return.
  ghost predicate IsPlan(cfg: Config, cur: seq<SliceVal>, chunks: seq<seq<string>>) {
    IsRun(cfg, cur, chunks) && Run(cfg, cur, chunks).todo == {}
  }
}
