// pkg/controllers/multicluster/endpointslice_plan.go: the planner itself, over slice objects it updates in place.
module SlicePlanner {
  import opened Common
  import opened Model
  import opened Ports
  import opened SliceSpec
  import opened SliceInvariant
  import opened SliceRounds
  import opened SliceTheorems

  const DEFAULT_MAX_ENDPOINTS_PER_SLICE := 100

  datatype SliceMeta = SliceMeta(namespace_: string, generateName: string, labels: map<string, string>, addressType: string)

  const LABEL_SERVICE_NAME := "kubernetes.io/service-name"
  const LABEL_SERVICE_IMPORT_NAME := "multicluster.kubernetes.io/service-name"
  const LABEL_MANAGED_BY := "endpointslice.kubernetes.io/managed-by"
  const LABEL_SOURCE_CLUSTER := "multicluster.kubernetes.io/source-cluster"
  const MANAGED_BY := "aws-cloud-map-mcs-controller-for-k8s"

  // The labels, name and namespace CreateEndpointSliceStruct gives a new slice.
  function NewSliceMeta(svc: ServiceRef, svcImportName: string, clusterId: string, addressType: string): SliceMeta {
    SliceMeta(svc.namespace_, svc.name + "-",
              map[LABEL_SERVICE_NAME := svc.name,
                  LABEL_SERVICE_IMPORT_NAME := svcImportName,
                  LABEL_MANAGED_BY := MANAGED_BY,
                  LABEL_SOURCE_CLUSTER := clusterId],
              addressType)
  }

  predicate HasLabel(meta: SliceMeta, key: string, value: string) {
    key in meta.labels && meta.labels[key] == value
  }

  // Which slices the importer lists, and deletes, for a service: those of its namespace labelled with its name.
  predicate Selects(namespace_: string, name: string, meta: SliceMeta) {
    meta.namespace_ == namespace_ && HasLabel(meta, LABEL_SERVICE_NAME, name)
  }

  // A slice is selected for this service and no other, and names the import and the cluster it was made for.
  ghost predicate MadeFor(meta: SliceMeta, svc: ServiceRef, svcImportName: string, clusterId: string) {
    && (forall namespace_, name :: Selects(namespace_, name, meta) <==> namespace_ == svc.namespace_ && name == svc.name)
    && HasLabel(meta, LABEL_SERVICE_IMPORT_NAME, svcImportName) && HasLabel(meta, LABEL_SOURCE_CLUSTER, clusterId)
    && HasLabel(meta, LABEL_MANAGED_BY, MANAGED_BY) && svc.name + "-" <= meta.generateName
  }

  lemma NewSliceMadeFor(svc: ServiceRef, svcImportName: string, clusterId: string, addressType: string)
    ensures MadeFor(NewSliceMeta(svc, svcImportName, clusterId, addressType), svc, svcImportName, clusterId)
  {
    assert LABEL_SERVICE_NAME[0] != LABEL_SERVICE_IMPORT_NAME[0] && LABEL_SERVICE_NAME[0] != LABEL_MANAGED_BY[0];
    assert LABEL_SERVICE_NAME[0] != LABEL_SOURCE_CLUSTER[0] && LABEL_MANAGED_BY[0] != LABEL_SOURCE_CLUSTER[0];
    assert LABEL_SERVICE_IMPORT_NAME[0] != LABEL_MANAGED_BY[0] && |LABEL_SERVICE_IMPORT_NAME| != |LABEL_SOURCE_CLUSTER|;
  }

  // All endpoints have the address type t.
  ghost predicate OneType(endpoints: seq<Endpoint>, t: string) {
    endpoints != [] && forall e :: e in endpoints ==> e.addressType == t
  }

  class EndpointSlice {
    const meta: SliceMeta
    var endpoints: seq<SliceEndpoint>
    var ports: seq<EndpointPort>

    constructor (meta: SliceMeta)
      ensures this.meta == meta && Val() == SliceVal([], [])
    {
      this.meta := meta;
      endpoints := [];
      ports := [];
    }

    function Val(): SliceVal
      reads this
    {
      SliceVal(endpoints, ports)
    }
  }

  class EndpointSliceChanges {
    var create: seq<EndpointSlice>
    var update: seq<EndpointSlice>
    var delete: seq<EndpointSlice>
    var unmodified: seq<EndpointSlice>

    constructor ()
      ensures create == [] && update == [] && delete == [] && unmodified == []
    {
      create, update, delete, unmodified := [], [], [], [];
    }

    ghost function Snapshot(): ChangeLists
      reads this
    {
      ChangeLists(create, update, delete, unmodified)
    }
  }

  ghost function Vals(objs: seq<EndpointSlice>): seq<SliceVal>
    reads objs
  {
    seq(|objs|, i requires 0 <= i < |objs| reads objs => objs[i].Val())
  }

  // objs are the objects of cur that ts names, with the contents ts gives.
  ghost predicate Mirrors(objs: seq<EndpointSlice>, cur: seq<EndpointSlice>, ts: seq<Tracked>)
    reads objs
  {
    && |objs| == |ts|
    && forall i :: 0 <= i < |objs| ==>
         ts[i].origin < |cur| && objs[i] == cur[ts[i].origin] && objs[i].Val() == ts[i].slice
  }

  // The lists of an EndpointSliceChanges, as a value.
  datatype ChangeLists = ChangeLists(create: seq<EndpointSlice>, update: seq<EndpointSlice>,
                                     delete: seq<EndpointSlice>, unmodified: seq<EndpointSlice>)
  {
    // The first slice marked for deletion becomes the last updated one.
    ghost function TakeBack(): ChangeLists
      requires delete != []
    {
      this.(update := update + [delete[0]], delete := delete[1..])
    }

    // Unmodified slice i becomes the last updated one.
    ghost function Absorb(i: nat): ChangeLists
      requires i < |unmodified|
    {
      this.(update := update + [unmodified[i]], unmodified := unmodified[..i] + unmodified[i + 1..])
    }
  }

  ghost predicate MirrorsAll(l: ChangeLists, cur: seq<EndpointSlice>, st: PlanState)
    reads l.update, l.delete, l.unmodified
  {
    Mirrors(l.update, cur, st.update) && Mirrors(l.delete, cur, st.delete) && Mirrors(l.unmodified, cur, st.unmodified)
  }

  // The changes, object by object, are what the plan state says; created objects are new and distinct.
  ghost predicate Represents(ch: EndpointSliceChanges, cur: seq<EndpointSlice>, st: PlanState)
    reads ch, ch.create, ch.update, ch.delete, ch.unmodified
  {
    ListsAre(ch.Snapshot(), cur, st)
  }

  ghost predicate ListsAre(l: ChangeLists, cur: seq<EndpointSlice>, st: PlanState)
    reads l.create, l.update, l.delete, l.unmodified
  {
    && MirrorsAll(l, cur, st)
    && |l.create| == |st.create|
    && (forall i :: 0 <= i < |l.create| ==> l.create[i].Val() == st.create[i] && l.create[i] !in cur)
    && NoDuplicates(l.create)
  }

  // ---- Every entry of Current is kept, whichever objects the entries refer to ----

  // Update, Delete and Unmodified together are Current, entry by entry.
  ghost predicate Conserves(l: ChangeLists, cur: seq<EndpointSlice>) {
    multiset(l.update) + multiset(l.delete) + multiset(l.unmodified) == multiset(cur)
  }

  lemma ListedIsCurrent(l: ChangeLists, cur: seq<EndpointSlice>)
    requires Conserves(l, cur)
    ensures forall s :: s in l.update || s in l.delete || s in l.unmodified ==> s in cur
  {
    forall s | s in l.update || s in l.delete || s in l.unmodified ensures s in cur {
      assert s in multiset(l.update) + multiset(l.delete) + multiset(l.unmodified);
    }
  }

  lemma ConservesFiled(l: ChangeLists, l': ChangeLists, cur: seq<EndpointSlice>, n: nat)
    requires n < |cur| && Conserves(l, cur[..n])
    requires l' in [l.(update := l.update + [cur[n]]), l.(delete := l.delete + [cur[n]]), l.(unmodified := l.unmodified + [cur[n]])]
    ensures Conserves(l', cur[..n + 1])
  {
    assert cur[..n + 1] == cur[..n] + [cur[n]];
  }

  lemma ConservesReuse(l: ChangeLists, cur: seq<EndpointSlice>)
    requires Conserves(l, cur) && l.delete != []
    ensures Conserves(l.TakeBack(), cur) && l.delete[0] in cur
  {
    ListedIsCurrent(l, cur);
    assert l.delete == [l.delete[0]] + l.delete[1..];
  }

  lemma ConservesAbsorb(l: ChangeLists, cur: seq<EndpointSlice>, i: nat)
    requires Conserves(l, cur) && i < |l.unmodified|
    ensures Conserves(l.Absorb(i), cur) && l.unmodified[i] in cur
  {
    ListedIsCurrent(l, cur);
    assert l.unmodified == l.unmodified[..i] + [l.unmodified[i]] + l.unmodified[i + 1..];
  }

  // The changes name an object once, in one list.
  ghost predicate EachOnce(l: ChangeLists) {
    NoDuplicates(l.update + l.delete + l.unmodified + l.create)
  }

  lemma DistinctConcat(a: seq<EndpointSlice>, b: seq<EndpointSlice>)
    requires NoDuplicates(b) && forall i :: 0 <= i < |b| ==> b[i] !in a
    ensures NoDuplicates(a + b) <==> NoDuplicates(a)
  {
    if NoDuplicates(a + b) {
      forall i, j | 0 <= i < j < |a| ensures a[i] != a[j] {
        assert (a + b)[i] == a[i] && (a + b)[j] == a[j];
      }
    }
    if NoDuplicates(a) {
      forall i, j | 0 <= i < j < |a + b| ensures (a + b)[i] != (a + b)[j] {
        assert j >= |a| ==> b[j - |a|] !in a;
      }
    }
  }

  lemma {:induction false} DistinctIff(s: seq<EndpointSlice>)
    ensures NoDuplicates(s) <==> forall x :: multiset(s)[x] <= 1
  {
    if s != [] {
      var init, last := s[..|s| - 1], s[|s| - 1];
      assert s == init + [last];
      DistinctIff(init);
      if last in init {
        var i :| 0 <= i < |init| && init[i] == last;
        assert s[i] == s[|s| - 1];
        assert multiset(s)[last] == multiset(init)[last] + 1;
      } else {
        DistinctConcat(init, [last]);
        assert last !in multiset(init);
        assert forall x :: multiset(s)[x] == multiset(init)[x] + multiset{last}[x];
      }
    }
  }

  lemma OnceIff(l: ChangeLists, cur: seq<EndpointSlice>)
    requires Conserves(l, cur) && NoDuplicates(l.create) && forall i :: 0 <= i < |l.create| ==> l.create[i] !in cur
    ensures EachOnce(l) <==> NoDuplicates(cur)
  {
    var entries := l.update + l.delete + l.unmodified;
    assert multiset(entries) == multiset(cur);
    DistinctIff(entries);
    DistinctIff(cur);
    assert forall s :: s in entries ==> s in multiset(entries);
    DistinctConcat(entries, l.create);
  }

  // ---- Distinct origins, hence distinct objects ----

  ghost predicate OwnOrigins(ts: seq<Tracked>) {
    forall i, j :: 0 <= i < j < |ts| ==> ts[i].origin != ts[j].origin
  }

  ghost predicate OtherOrigins(a: seq<Tracked>, b: seq<Tracked>) {
    forall i, j :: 0 <= i < |a| && 0 <= j < |b| ==> a[i].origin != b[j].origin
  }

  ghost predicate Apart(st: PlanState) {
    && OwnOrigins(st.update) && OwnOrigins(st.delete) && OwnOrigins(st.unmodified)
    && OtherOrigins(st.update, st.delete) && OtherOrigins(st.update, st.unmodified) && OtherOrigins(st.delete, st.unmodified)
  }

  lemma PartitionedIsApart(n: nat, st: PlanState)
    requires Partitioned(n, st)
    ensures Apart(st)
  {
    forall o: nat ensures Listed(st.update, o) + Listed(st.delete, o) + Listed(st.unmodified, o) <= 1 {
      assert PartitionedAt(n, st, o);
    }
    ListedOnce(st.update);
    ListedOnce(st.delete);
    ListedOnce(st.unmodified);
    ListedApart(st.update, st.delete);
    ListedApart(st.update, st.unmodified);
    ListedApart(st.delete, st.unmodified);
  }

  lemma {:induction false} ListedAt(ts: seq<Tracked>, i: nat)
    requires i < |ts|
    ensures Listed(ts, ts[i].origin) >= 1
  {
    if i < |ts| - 1 {
      ListedAt(ts[..|ts| - 1], i);
    }
  }

  lemma ListedOnce(ts: seq<Tracked>)
    requires forall o: nat :: Listed(ts, o) <= 1
    ensures OwnOrigins(ts)
  {
    forall i, j | 0 <= i < j < |ts| ensures ts[i].origin != ts[j].origin {
      assert ts == ts[..j] + ts[j..];
      ListedConcat(ts[..j], ts[j..], ts[i].origin);
      ListedAt(ts[..j], i);
      ListedAt(ts[j..], 0);
    }
  }

  lemma ListedApart(a: seq<Tracked>, b: seq<Tracked>)
    requires forall o: nat :: Listed(a, o) + Listed(b, o) <= 1
    ensures OtherOrigins(a, b)
  {
    forall i, j | 0 <= i < |a| && 0 <= j < |b| ensures a[i].origin != b[j].origin {
      ListedAt(a, i);
      ListedAt(b, j);
    }
  }

  // What a search finds among the objects is what FirstShort finds in the plan state.
  lemma FirstShortIs(objs: seq<EndpointSlice>, cur: seq<EndpointSlice>, ts: seq<Tracked>, limit: int, i: nat)
    requires Mirrors(objs, cur, ts) && i <= |objs| && (i < |objs| ==> |objs[i].endpoints| <= limit)
    requires forall j :: 0 <= j < i ==> |objs[j].endpoints| > limit
    ensures i == FirstShort(ts, limit)
  {
    forall j | 0 <= j < i ensures |ts[j].slice.endpoints| > limit {
      assert objs[j].Val() == ts[j].slice;
    }
  }

  lemma OpenedPartitioned(cfg: Config, n: nat, st: PlanState)
    requires Partitioned(n, st)
    ensures Partitioned(n, Open(cfg, st).st)
  {
    forall o: nat ensures PartitionedAt(n, Open(cfg, st).st, o) {
      assert PartitionedAt(n, st, o);
      OpenPartitioned(cfg, n, st, o);
    }
  }

  lemma AbsorbListed(l: ChangeLists, cur: seq<EndpointSlice>, st: PlanState, i: nat)
    requires ListsAre(l, cur, st) && i < |l.unmodified|
    ensures ListsAre(l.Absorb(i), cur, Absorb(st, i))
  {
  }

  lemma NewListed(l: ChangeLists, cur: seq<EndpointSlice>, st: PlanState, s: EndpointSlice)
    requires ListsAre(l, cur, st) && s !in cur && s !in l.create && s.Val() == SliceVal([], [])
    ensures ListsAre(l.(create := l.create + [s]), cur, AddNew(st))
  {
  }

  // Reuse before the slice is emptied
  function TakeBack(st: PlanState): PlanState
    requires st.delete != []
  {
    st.(update := st.update + [st.delete[0]], delete := st.delete[1..])
  }

  lemma TakeBackListed(l: ChangeLists, cur: seq<EndpointSlice>, st: PlanState)
    requires ListsAre(l, cur, st) && l.delete != []
    ensures ListsAre(l.TakeBack(), cur, TakeBack(st))
    ensures Reuse(st) == SetTarget(TakeBack(st), InUpdate(|st.update|), st.delete[0].slice.(endpoints := []))
  {
  }

  lemma TakeBackApart(st: PlanState)
    requires Apart(st) && st.delete != []
    ensures Apart(TakeBack(st))
  {
  }

  // ---- Filling one slice on the heap ----

  // The slice being filled is nowhere else in the changes.
  ghost predicate OnlyAt(ch: EndpointSliceChanges, s: EndpointSlice, t: Target)
    reads ch
  {
    && (forall i :: 0 <= i < |ch.update| ==> (ch.update[i] == s <==> t == InUpdate(i)))
    && (forall i :: 0 <= i < |ch.create| ==> (ch.create[i] == s <==> t == InCreate(i)))
    && s !in ch.delete && s !in ch.unmodified
  }

  ghost predicate TargetIs(ch: EndpointSliceChanges, s: EndpointSlice, t: Target)
    reads ch
  {
    match t
    case InUpdate(i) => i < |ch.update| && ch.update[i] == s
    case InCreate(i) => i < |ch.create| && ch.create[i] == s
  }

  lemma TargetIsOnlyThere(ch: EndpointSliceChanges, cur: seq<EndpointSlice>, st: PlanState, s: EndpointSlice, t: Target)
    requires NoDuplicates(cur) && Represents(ch, cur, st) && Apart(st) && TargetIs(ch, s, t)
    ensures OnlyAt(ch, s, t)
  {
    MirroredIn(ch.update, cur, st.update);
    MirroredIn(ch.delete, cur, st.delete);
    MirroredIn(ch.unmodified, cur, st.unmodified);
    match t
    case InUpdate(i) =>
      MirroredOnce(ch.update, cur, st.update, i);
      MirroredApart(ch.update, ch.delete, cur, st.update, st.delete);
      MirroredApart(ch.update, ch.unmodified, cur, st.update, st.unmodified);
    case InCreate(i) =>
  }

  lemma MirroredIn(objs: seq<EndpointSlice>, cur: seq<EndpointSlice>, ts: seq<Tracked>)
    requires Mirrors(objs, cur, ts)
    ensures forall o :: o in objs ==> o in cur
  {
  }

  lemma MirroredOnce(objs: seq<EndpointSlice>, cur: seq<EndpointSlice>, ts: seq<Tracked>, i: nat)
    requires NoDuplicates(cur) && Mirrors(objs, cur, ts) && OwnOrigins(ts) && i < |objs|
    ensures forall j :: 0 <= j < |objs| ==> (objs[j] == objs[i] <==> i == j)
  {
    forall j | 0 <= j < |objs| && j != i ensures objs[j] != objs[i] {
      var a, b := ts[i].origin, ts[j].origin;
      assert a != b && cur[a] == objs[i] && cur[b] == objs[j];
    }
  }

  lemma MirroredApart(xs: seq<EndpointSlice>, ys: seq<EndpointSlice>, cur: seq<EndpointSlice>,
                      ts: seq<Tracked>, us: seq<Tracked>)
    requires NoDuplicates(cur) && Mirrors(xs, cur, ts) && Mirrors(ys, cur, us) && OtherOrigins(ts, us)
    ensures forall i :: 0 <= i < |xs| ==> xs[i] !in ys
  {
    forall i, j | 0 <= i < |xs| && 0 <= j < |ys| ensures xs[i] != ys[j] {
      var a, b := ts[i].origin, us[j].origin;
      assert a != b && cur[a] == xs[i] && cur[b] == ys[j];
    }
  }

  // Everything but the target is as the plan state says.
  ghost predicate RepresentsBut(ch: EndpointSliceChanges, cur: seq<EndpointSlice>, st: PlanState, t: Target)
    reads ch, ch.create, ch.update, ch.delete, ch.unmodified
  {
    && |ch.update| == |st.update| && |ch.create| == |st.create|
    && (forall i :: 0 <= i < |ch.update| ==> st.update[i].origin < |cur| && ch.update[i] == cur[st.update[i].origin])
    && (forall i :: 0 <= i < |ch.update| && t != InUpdate(i) ==> ch.update[i].Val() == st.update[i].slice)
    && (forall i :: 0 <= i < |ch.create| ==> ch.create[i] !in cur)
    && (forall i :: 0 <= i < |ch.create| && t != InCreate(i) ==> ch.create[i].Val() == st.create[i])
    && Mirrors(ch.delete, cur, st.delete) && Mirrors(ch.unmodified, cur, st.unmodified)
    && NoDuplicates(ch.create)
  }

  lemma RefilledRepresents(ch: EndpointSliceChanges, cur: seq<EndpointSlice>, st: PlanState, s: EndpointSlice, t: Target)
    requires HasTarget(st, t) && RepresentsBut(ch, cur, st, t) && TargetIs(ch, s, t)
    ensures Represents(ch, cur, SetTarget(st, t, s.Val()))
  {
  }

  // ---- Trimming one slice on the heap ----

  // What the outer loop body of TrimSlices does with slice s, of contents v before and v' after, that keeps `kept`.
  ghost predicate Filed(l': ChangeLists, s: EndpointSlice, v: SliceVal, v': SliceVal, l: ChangeLists,
                        kept: seq<SliceEndpoint>, ports: seq<Port>)
  {
    var matched := PortsEqualIgnoreOrder(ports, ToPorts(v.ports));
    var same := |kept| == |v.endpoints|;
    && l' == (if kept == [] then l.(delete := l.delete + [s])
              else if matched && same then l.(unmodified := l.unmodified + [s])
              else l.(update := l.update + [s]))
    && v' == (if kept == [] then v
              else SliceVal(if same then v.endpoints else kept, if matched then v.ports else ToEndpointPorts(ports)))
  }

  // Mirrors, for slices whose contents now are given.
  ghost predicate MirrorsIn(objs: seq<EndpointSlice>, cur: seq<EndpointSlice>, now: seq<SliceVal>, n: nat, ts: seq<Tracked>)
    requires n <= |cur| == |now|
  {
    && |objs| == |ts|
    && forall i :: 0 <= i < |objs| ==> ts[i].origin < n && objs[i] == cur[ts[i].origin] && now[ts[i].origin] == ts[i].slice
  }

  ghost predicate FiledAs(l: ChangeLists, cur: seq<EndpointSlice>, now: seq<SliceVal>, n: nat, st: PlanState)
    requires n <= |cur| == |now|
  {
    && MirrorsIn(l.update, cur, now, n, st.update) && MirrorsIn(l.delete, cur, now, n, st.delete)
    && MirrorsIn(l.unmodified, cur, now, n, st.unmodified)
  }

  // The first n slices are filed as Trim says, and the others still have their first contents.
  ghost predicate TrimmedTo(cfg: Config, l: ChangeLists, cur: seq<EndpointSlice>, now: seq<SliceVal>, was: seq<SliceVal>,
                            n: nat, left: set<string>)
  {
    && n <= |cur| == |now| == |was|
    && FiledAs(l, cur, now, n, Trim(cfg, was[..n])) && left == Trim(cfg, was[..n]).todo
    && forall k :: n <= k < |cur| ==> now[k] == was[k]
  }

  lemma TrimNext(cfg: Config, cur: seq<SliceVal>, n: nat)
    requires n < |cur|
    ensures Trim(cfg, cur[..n + 1]) == TrimOne(cfg, Trim(cfg, cur[..n]), n, cur[n])
  {
    assert cur[..n + 1][..n] == cur[..n];
  }

  lemma {:induction false} TrimUpdateGrows(cfg: Config, cur: seq<SliceVal>, n: nat)
    requires n <= |cur|
    ensures Trim(cfg, cur).update == [] ==> Trim(cfg, cur[..n]).update == []
    decreases |cur|
  {
    if n < |cur| {
      TrimUpdateGrows(cfg, cur[..|cur| - 1], n);
      assert cur[..|cur| - 1][..n] == cur[..n];
    } else {
      assert cur[..n] == cur;
    }
  }

  lemma FiledNext(cfg: Config, l: ChangeLists, l': ChangeLists, cur: seq<EndpointSlice>, now: seq<SliceVal>, n: nat,
                  st: PlanState, v': SliceVal)
    requires n < |cur| == |now| && FiledAs(l, cur, now, n, st)
    requires Filed(l', cur[n], now[n], v', l, Kept(now[n].endpoints, st.todo), cfg.ports)
    ensures FiledAs(l', cur, now[n := v'], n + 1, TrimOne(cfg, st, n, now[n]))
  {
    KeptAll(now[n].endpoints, st.todo);
  }

  lemma TrimmedNext(cfg: Config, l: ChangeLists, l': ChangeLists, cur: seq<EndpointSlice>, now: seq<SliceVal>,
                    v': SliceVal, was: seq<SliceVal>, n: nat, left: set<string>)
    requires TrimmedTo(cfg, l, cur, now, was, n, left) && n < |cur|
    requires Filed(l', cur[n], now[n], v', l, Kept(now[n].endpoints, left), cfg.ports)
    ensures TrimmedTo(cfg, l', cur, now[n := v'], was, n + 1, left - AddressSet(now[n].endpoints))
  {
    TrimNext(cfg, was, n);
    FiledNext(cfg, l, l', cur, now, n, Trim(cfg, was[..n]), v');
  }

  // A slice that does not go to Update keeps its contents.
  lemma TrimmedUnwritten(cfg: Config, l: ChangeLists, l': ChangeLists, cur: seq<EndpointSlice>, now: seq<SliceVal>,
                         v': SliceVal, was: seq<SliceVal>, n: nat, left: set<string>)
    requires TrimmedTo(cfg, l, cur, now, was, n, left) && n < |cur| && Trim(cfg, was).update == []
    requires Filed(l', cur[n], now[n], v', l, Kept(now[n].endpoints, left), cfg.ports)
    ensures v' == now[n]
  {
    TrimNext(cfg, was, n);
    TrimUpdateGrows(cfg, was, n + 1);
    KeptAll(now[n].endpoints, left);
  }

  lemma TrimmedAll(cfg: Config, l: ChangeLists, cur: seq<EndpointSlice>, was: seq<SliceVal>, left: set<string>)
    requires TrimmedTo(cfg, l, cur, Vals(cur), was, |cur|, left) && l.create == []
    ensures ListsAre(l, cur, Trim(cfg, was)) && Partitioned(|cur|, Trim(cfg, was)) && left == Trim(cfg, was).todo
  {
    assert was[..|cur|] == was;
    TrimTodo(cfg, was);
    forall o: nat ensures PartitionedAt(|was|, Trim(cfg, was), o) {
      TrimPartitioned(cfg, was, o);
    }
  }

  lemma KeepNext(es: seq<SliceEndpoint>, m: map<string, Endpoint>, j: nat)
    requires j < |es|
    ensures var key, remaining := es[j].address, m - AddressSet(es[..j]);
            && Kept(es[..j + 1], m.Keys) == Kept(es[..j], m.Keys) + (if key in remaining then [es[j]] else [])
            && m - AddressSet(es[..j + 1]) == if key in remaining then remaining - {key} else remaining
  {
    assert es[..j + 1][..j] == es[..j];
    AddressSetSnoc(es[..j + 1]);
  }

  // ---- Taking from the map ----

  // remaining is what is left of m after the distinct keys of chunk were taken.
  ghost predicate Taken(m: map<string, Endpoint>, remaining: map<string, Endpoint>, chunk: seq<string>) {
    && NoDuplicates(chunk)
    && (forall ip :: ip in chunk ==> ip in m)
    && remaining.Keys == m.Keys - ToSet(chunk)
    && (forall ip :: ip in remaining ==> remaining[ip] == m[ip])
  }

  lemma TakeOne(m: map<string, Endpoint>, remaining: map<string, Endpoint>, chunk: seq<string>, key: string)
    requires Taken(m, remaining, chunk) && key in remaining
    ensures Taken(m, remaining - {key}, chunk + [key]) && |remaining - {key}| < |remaining|
  {
    assert ToSet(chunk + [key]) == ToSet(chunk) + {key};
    assert (remaining - {key}).Keys == remaining.Keys - {key};
  }

  lemma TakenCount(m: map<string, Endpoint>, remaining: map<string, Endpoint>, chunk: seq<string>)
    requires Taken(m, remaining, chunk)
    ensures |remaining| == |m| - |chunk|
  {
    SetSize(chunk);
    assert ToSet(chunk) <= m.Keys;
  }

  lemma TakenIsChunk(cfg: Config, st: PlanState, m: map<string, Endpoint>, remaining: map<string, Endpoint>, chunk: seq<string>)
    requires m.Keys == st.todo && st.todo != {} && st.todo <= cfg.want.Keys && Taken(m, remaining, chunk)
    requires |chunk| == Min(cfg.max - |TargetSlice(Open(cfg, st).st, Open(cfg, st).target).endpoints|, |m|)
    ensures IsChunk(cfg, st, chunk)
    ensures remaining.Keys == Step(cfg, st, chunk).todo
  {
  }

  lemma RecordsSnoc(cfg: Config, es: seq<SliceEndpoint>, chunk: seq<string>, key: string)
    requires key in cfg.want && forall ip :: ip in chunk ==> ip in cfg.want
    ensures es + Records(cfg, chunk + [key]) == es + Records(cfg, chunk) + [CreateEndpointForSlice(cfg.service, cfg.want[key])]
  {
    assert Records(cfg, chunk + [key]) == Records(cfg, chunk) + [CreateEndpointForSlice(cfg.service, cfg.want[key])];
  }

  lemma RunFacts(cfg: Config, cur: seq<SliceVal>, chunks: seq<seq<string>>)
    requires ValidConfig(cfg) && IsRun(cfg, cur, chunks)
    ensures Partitioned(|cur|, Run(cfg, cur, chunks))
  {
    RunSound(cfg, cur, chunks);
  }

  lemma RunSnoc(cfg: Config, cur: seq<SliceVal>, chunks: seq<seq<string>>, chunk: seq<string>)
    requires ValidConfig(cfg) && IsRun(cfg, cur, chunks) && IsChunk(cfg, Run(cfg, cur, chunks), chunk)
    ensures IsRun(cfg, cur, chunks + [chunk]) && Run(cfg, cur, chunks + [chunk]) == Step(cfg, Run(cfg, cur, chunks), chunk)
    ensures |Step(cfg, Run(cfg, cur, chunks), chunk).todo| < |Run(cfg, cur, chunks).todo|
  {
    assert (chunks + [chunk])[..|chunks|] == chunks;
    ChunkCounts(cfg, Run(cfg, cur, chunks), chunk);
  }

  // ---- The plan ----

  class EndpointSlicePlan {
    // 0 stands for the default of 100
    const maxEndpointsPerSlice: nat
    const service: ServiceRef
    const serviceImportName: string
    const current: seq<EndpointSlice>
    const desired: seq<Endpoint>
    const clusterId: string

    constructor (maxEndpointsPerSlice: nat, service: ServiceRef, serviceImportName: string,
                 current: seq<EndpointSlice>, desired: seq<Endpoint>, clusterId: string)
      ensures this.maxEndpointsPerSlice == maxEndpointsPerSlice && this.service == service
      ensures this.serviceImportName == serviceImportName && this.current == current && this.desired == desired && this.clusterId == clusterId
    {
      this.maxEndpointsPerSlice := maxEndpointsPerSlice;
      this.service := service;
      this.serviceImportName := serviceImportName;
      this.current := current;
      this.desired := desired;
      this.clusterId := clusterId;
    }

    function GetMaxEndpointsPerSlice(): (m: int)
      ensures m >= 1 && if maxEndpointsPerSlice == 0 then m == 100 else m == maxEndpointsPerSlice
    {
      if maxEndpointsPerSlice != 0 then maxEndpointsPerSlice else DEFAULT_MAX_ENDPOINTS_PER_SLICE
    }

    function CheckAddressType(): (t: string)
      ensures desired != [] ==> t == desired[0].addressType
      ensures desired == [] ==> t == IPV4
    {
      if desired == [] then IPV4 else desired[0].addressType
    }

    ghost function ConfigWith(want: map<string, Endpoint>, ports: seq<Port>): Config {
      Config(service, want, ports, GetMaxEndpointsPerSlice())
    }

    // Aliased entries do not matter as long as no slice is written.
    method TrimSlices(desiredEndpoints: map<string, Endpoint>, desiredPorts: seq<Port>)
      returns (changes: EndpointSliceChanges, remaining: map<string, Endpoint>)
      modifies current
      ensures fresh(changes) && changes.create == [] && Conserves(changes.Snapshot(), current)
      ensures var trimmed := Trim(ConfigWith(desiredEndpoints, desiredPorts), old(Vals(current)));
              NoDuplicates(current) || trimmed.update == [] ==>
                Represents(changes, current, trimmed) && Partitioned(|current|, trimmed) && remaining.Keys == trimmed.todo
      ensures forall ip :: ip in remaining ==> ip in desiredEndpoints && remaining[ip] == desiredEndpoints[ip]
    {
      ghost var cfg, cur := ConfigWith(desiredEndpoints, desiredPorts), Vals(current);
      changes := new EndpointSliceChanges();
      remaining := TrimEach(changes, desiredEndpoints, desiredPorts, cfg, cur);
      assert current[..|current|] == current;
      if NoDuplicates(current) || Trim(cfg, cur).update == [] {
        TrimmedAll(cfg, changes.Snapshot(), current, cur, remaining.Keys);
      }
    }

    // The outer loop of TrimSlices
    method TrimEach(changes: EndpointSliceChanges, desiredEndpoints: map<string, Endpoint>, desiredPorts: seq<Port>,
                    ghost cfg: Config, ghost cur: seq<SliceVal>)
      returns (remaining: map<string, Endpoint>)
      requires changes.Snapshot() == ChangeLists([], [], [], []) && cur == Vals(current)
      requires cfg == ConfigWith(desiredEndpoints, desiredPorts)
      modifies changes, current
      ensures Trimming(changes, |current|, remaining, cfg, cur)
      ensures forall ip :: ip in remaining ==> ip in desiredEndpoints && remaining[ip] == desiredEndpoints[ip]
    {
      remaining := desiredEndpoints;
      for n := 0 to |current|
        invariant Trimming(changes, n, remaining, cfg, cur)
        invariant forall ip :: ip in remaining ==> ip in desiredEndpoints && remaining[ip] == desiredEndpoints[ip]
      {
        remaining := TrimNextSlice(changes, n, remaining, desiredPorts, cfg, cur);
      }
    }

    // The first n slices are filed.
    ghost predicate Trimming(changes: EndpointSliceChanges, n: nat, remaining: map<string, Endpoint>,
                             cfg: Config, cur: seq<SliceVal>)
      reads changes, current
      requires n <= |current|
    {
      && changes.create == [] && Conserves(changes.Snapshot(), current[..n])
      && (NoDuplicates(current) || Trim(cfg, cur).update == [] ==>
            TrimmedTo(cfg, changes.Snapshot(), current, Vals(current), cur, n, remaining.Keys))
    }

    method TrimNextSlice(changes: EndpointSliceChanges, n: nat, desiredEndpoints: map<string, Endpoint>, desiredPorts: seq<Port>,
                         ghost cfg: Config, ghost cur: seq<SliceVal>)
      returns (remaining: map<string, Endpoint>)
      requires n < |current| && cfg.ports == desiredPorts && Trimming(changes, n, desiredEndpoints, cfg, cur)
      modifies changes, current[n]
      ensures remaining == desiredEndpoints - AddressSet(old(current[n].endpoints))
      ensures Trimming(changes, n + 1, remaining, cfg, cur)
    {
      ghost var lists, now := changes.Snapshot(), Vals(current);
      remaining := TrimSlice(changes, n, desiredEndpoints, desiredPorts);
      ConservesFiled(lists, changes.Snapshot(), current, n);
      if NoDuplicates(current) || Trim(cfg, cur).update == [] {
        if Trim(cfg, cur).update == [] {
          TrimmedUnwritten(cfg, lists, changes.Snapshot(), current, now, current[n].Val(), cur, n, desiredEndpoints.Keys);
        }
        TrimmedNext(cfg, lists, changes.Snapshot(), current, now, current[n].Val(), cur, n, desiredEndpoints.Keys);
      }
    }

    // The body of the outer loop of TrimSlices
    method TrimSlice(changes: EndpointSliceChanges, n: nat, desiredEndpoints: map<string, Endpoint>, desiredPorts: seq<Port>)
      returns (remaining: map<string, Endpoint>)
      requires n < |current|
      modifies changes, current[n]
      ensures remaining == desiredEndpoints - AddressSet(old(current[n].endpoints))
      ensures Filed(changes.Snapshot(), current[n], old(current[n].Val()), current[n].Val(), old(changes.Snapshot()),
                    Kept(old(current[n].endpoints), desiredEndpoints.Keys), desiredPorts)
      ensures NoDuplicates(current) || current[n].Val() == old(current[n].Val()) ==>
                Vals(current) == old(Vals(current))[n := current[n].Val()]
    {
      var updatedEndpointList;
      updatedEndpointList, remaining := KeepDesired(current[n].endpoints, desiredEndpoints);
      FileSlice(changes, current[n], updatedEndpointList, desiredPorts);
    }

    // The rest of the outer loop of TrimSlices: one slice is updated if need be and put in the list it belongs to.
    method FileSlice(changes: EndpointSliceChanges, existingSlice: EndpointSlice,
                     updatedEndpointList: seq<SliceEndpoint>, desiredPorts: seq<Port>)
      modifies changes, existingSlice
      ensures Filed(changes.Snapshot(), existingSlice, old(existingSlice.Val()), existingSlice.Val(), old(changes.Snapshot()),
                    updatedEndpointList, desiredPorts)
    {
      if updatedEndpointList == [] {
        changes.delete := changes.delete + [existingSlice];
        return;
      }
      var sliceNeedsUpdate := false;
      if !PortsEqualIgnoreOrder(desiredPorts, ToPorts(existingSlice.ports)) {
        existingSlice.ports := ToEndpointPorts(desiredPorts);
        sliceNeedsUpdate := true;
      }
      if |updatedEndpointList| != |existingSlice.endpoints| {
        existingSlice.endpoints := updatedEndpointList;
        sliceNeedsUpdate := true;
      }
      if sliceNeedsUpdate {
        changes.update := changes.update + [existingSlice];
      } else {
        changes.unmodified := changes.unmodified + [existingSlice];
      }
    }

    // The inner loop of TrimSlices
    method KeepDesired(endpoints: seq<SliceEndpoint>, desiredEndpoints: map<string, Endpoint>)
      returns (kept: seq<SliceEndpoint>, remaining: map<string, Endpoint>)
      ensures kept == Kept(endpoints, desiredEndpoints.Keys)
      ensures remaining == desiredEndpoints - AddressSet(endpoints)
    {
      kept, remaining := [], desiredEndpoints;
      for j := 0 to |endpoints|
        invariant kept == Kept(endpoints[..j], desiredEndpoints.Keys)
        invariant remaining == desiredEndpoints - AddressSet(endpoints[..j])
      {
        var existingEndpoint := endpoints[j];
        KeepNext(endpoints, desiredEndpoints, j);
        var key := existingEndpoint.address;
        if key in remaining {
          kept := kept + [existingEndpoint];
          remaining := remaining - {key};
        }
      }
      assert endpoints[..|endpoints|] == endpoints;
    }

    method GetOrCreateUnfilledEndpointSlice(changes: EndpointSliceChanges, requiredCapacity: nat,
                                            ghost cfg: Config, ghost st: PlanState)
      returns (sliceWithRoom: EndpointSlice, needsPortUpdate: bool)
      requires requiredCapacity > 0 && cfg.max == GetMaxEndpointsPerSlice() && Follows(changes, st)
      requires NoDuplicates(current) ==> requiredCapacity == |st.todo|
      modifies changes, current
      ensures Conserves(changes.Snapshot(), current)
      ensures NoDuplicates(current) ==> Offers(changes, sliceWithRoom, needsPortUpdate, Open(cfg, st))
      ensures |sliceWithRoom.endpoints| < cfg.max && (sliceWithRoom in current || fresh(sliceWithRoom))
      ensures Created(old(changes.create), changes.create)
    {
      ListedIsCurrent(changes.Snapshot(), current);
      var u := FindShort(changes.update, GetMaxEndpointsPerSlice() - 1);
      if NoDuplicates(current) {
        FirstShortIs(changes.update, current, st.update, GetMaxEndpointsPerSlice() - 1, u);
      }
      if u < |changes.update| {
        // Prefer slices we are already updating
        sliceWithRoom, needsPortUpdate := changes.update[u], false;
      } else {
        sliceWithRoom, needsPortUpdate := MoveOrCreate(changes, requiredCapacity, cfg, st);
      }
    }

    // The other branches of GetOrCreateUnfilledEndpointSlice
    method MoveOrCreate(changes: EndpointSliceChanges, requiredCapacity: nat, ghost cfg: Config, ghost st: PlanState)
      returns (sliceWithRoom: EndpointSlice, needsPortUpdate: bool)
      requires requiredCapacity > 0 && cfg.max == GetMaxEndpointsPerSlice() && Follows(changes, st)
      requires NoDuplicates(current) ==>
                 requiredCapacity == |st.todo| && FirstShort(st.update, cfg.max - 1) == |st.update|
      modifies changes, current
      ensures Conserves(changes.Snapshot(), current)
      ensures NoDuplicates(current) ==> Offers(changes, sliceWithRoom, needsPortUpdate, Open(cfg, st))
      ensures |sliceWithRoom.endpoints| < cfg.max
      ensures if sliceWithRoom in current then changes.create == old(changes.create)
              else changes.create == old(changes.create) + [sliceWithRoom] && fresh(sliceWithRoom) && sliceWithRoom.meta == NewMeta()
    {
      var n := FindShort(changes.unmodified, GetMaxEndpointsPerSlice() - requiredCapacity);
      if NoDuplicates(current) {
        FirstShortIs(changes.unmodified, current, st.unmodified, GetMaxEndpointsPerSlice() - requiredCapacity, n);
        OpenIs(cfg, st, |st.update|, n);
      }
      if |changes.delete| > 0 {
        // Update a slice marked for deletion if possible
        sliceWithRoom := ReuseDeleted(changes, st);
        needsPortUpdate := true;
      } else if n < |changes.unmodified| {
        // Update an unmodified slice if it has capacity to add all endpoints
        sliceWithRoom, needsPortUpdate := changes.unmodified[n], false;
        TakeUnmodified(changes, n, st);
      } else {
        // No existing slice can take the new endpoints
        sliceWithRoom := AddCreated(changes, st);
        needsPortUpdate := true;
      }
    }

    // Every entry of Current is kept and, if they are distinct objects, the changes are what the plan state says.
    ghost predicate Follows(changes: EndpointSliceChanges, st: PlanState)
      reads changes, changes.create, changes.update, changes.delete, changes.unmodified
    {
      && Conserves(changes.Snapshot(), current)
      && (NoDuplicates(current) ==> Represents(changes, current, st) && Partitioned(|current|, st))
    }

    // Create gains new slices at most.
    twostate predicate Created(before: seq<EndpointSlice>, new after: seq<EndpointSlice>) {
      && (NoDuplicates(before) ==> NoDuplicates(after))
      && forall c :: c in after ==> c in before || (fresh(c) && c !in current && c.meta == NewMeta())
    }

    // What GetOrCreateUnfilledEndpointSlice hands out
    ghost predicate Offers(changes: EndpointSliceChanges, sliceWithRoom: EndpointSlice, needsPortUpdate: bool, o: Opened)
      reads changes, changes.create, changes.update, changes.delete, changes.unmodified
    {
      Represents(changes, current, o.st) && TargetIs(changes, sliceWithRoom, o.target) && needsPortUpdate == o.needsPortUpdate
    }

    // Both searches of GetOrCreateUnfilledEndpointSlice: the first slice with at most `limit` endpoints
    method FindShort(slices: seq<EndpointSlice>, limit: int) returns (i: nat)
      ensures i <= |slices| && (i < |slices| ==> |slices[i].endpoints| <= limit)
      ensures forall j :: 0 <= j < i ==> |slices[j].endpoints| > limit
    {
      i := 0;
      while i < |slices| && |slices[i].endpoints| > limit
        invariant i <= |slices| && forall j :: 0 <= j < i ==> |slices[j].endpoints| > limit
      {
        i := i + 1;
      }
    }

    method TakeUnmodified(changes: EndpointSliceChanges, i: nat, ghost st: PlanState)
      requires Follows(changes, st) && i < |changes.unmodified|
      modifies changes
      ensures Conserves(changes.Snapshot(), current) && changes.create == old(changes.create)
      ensures old(changes.unmodified[i]) in current
      ensures NoDuplicates(current) ==>
                Represents(changes, current, Absorb(st, i)) && TargetIs(changes, old(changes.unmodified[i]), InUpdate(|st.update|))
    {
      ConservesAbsorb(changes.Snapshot(), current, i);
      if NoDuplicates(current) {
        AbsorbListed(changes.Snapshot(), current, st, i);
      }
      var unmodifiedSlice := changes.unmodified[i];
      ghost var l := changes.Snapshot();
      changes.unmodified := changes.unmodified[..i] + changes.unmodified[i + 1..];
      changes.update := changes.update + [unmodifiedSlice];
      assert changes.Snapshot() == l.Absorb(i);
    }

    method AddCreated(changes: EndpointSliceChanges, ghost st: PlanState) returns (sliceToCreate: EndpointSlice)
      requires Follows(changes, st)
      modifies changes
      ensures Conserves(changes.Snapshot(), current)
      ensures changes.create == old(changes.create) + [sliceToCreate]
      ensures fresh(sliceToCreate) && sliceToCreate.meta == NewMeta() && sliceToCreate.endpoints == []
      ensures NoDuplicates(current) ==>
                Represents(changes, current, AddNew(st)) && TargetIs(changes, sliceToCreate, InCreate(|st.create|))
    {
      sliceToCreate := new EndpointSlice(NewMeta());
      if NoDuplicates(current) {
        NewListed(changes.Snapshot(), current, st, sliceToCreate);
      }
      ghost var l := changes.Snapshot();
      changes.create := changes.create + [sliceToCreate];
      assert changes.Snapshot() == l.(create := l.create + [sliceToCreate]);
    }

    // The branch of GetOrCreateUnfilledEndpointSlice that takes back the first slice marked for deletion
    method ReuseDeleted(changes: EndpointSliceChanges, ghost st: PlanState) returns (sliceToReuse: EndpointSlice)
      requires Follows(changes, st) && changes.delete != []
      modifies changes, current
      ensures Conserves(changes.Snapshot(), current) && changes.create == old(changes.create)
      ensures sliceToReuse in current && sliceToReuse.endpoints == []
      ensures NoDuplicates(current) ==>
                Represents(changes, current, Reuse(st)) && TargetIs(changes, sliceToReuse, InUpdate(|st.update|))
    {
      ConservesReuse(changes.Snapshot(), current);
      if NoDuplicates(current) {
        TakeBackListed(changes.Snapshot(), current, st);
        PartitionedIsApart(|current|, st);
        TakeBackApart(st);
      }
      ghost var l := changes.Snapshot();
      sliceToReuse := changes.delete[0];
      changes.delete := changes.delete[1..];
      changes.update := changes.update + [sliceToReuse];
      assert changes.Snapshot() == l.TakeBack();
      ClearEndpoints(changes, sliceToReuse, if NoDuplicates(current) then TakeBack(st) else st, InUpdate(|st.update|));
    }

    // clear endpoint list that was marked for deletion before reusing
    method ClearEndpoints(changes: EndpointSliceChanges, sliceToReuse: EndpointSlice, ghost st: PlanState, ghost t: Target)
      requires NoDuplicates(current) ==>
                 HasTarget(st, t) && Represents(changes, current, st) && Apart(st) && TargetIs(changes, sliceToReuse, t)
      modifies sliceToReuse`endpoints
      ensures sliceToReuse.endpoints == []
      ensures NoDuplicates(current) ==> Represents(changes, current, SetTarget(st, t, TargetSlice(st, t).(endpoints := [])))
    {
      if NoDuplicates(current) {
        TargetIsOnlyThere(changes, current, st, sliceToReuse, t);
      }
      sliceToReuse.endpoints := [];
      if NoDuplicates(current) {
        RefilledRepresents(changes, current, st, sliceToReuse, t);
      }
    }

    function NewMeta(): SliceMeta {
      NewSliceMeta(service, serviceImportName, clusterId, CheckAddressType())
    }

    // The inner loop of the fill: range over the map, in any order, until the slice is full.
    method FillSlice(sliceWithRoom: EndpointSlice, desiredEndpoints: map<string, Endpoint>, ghost cfg: Config)
      returns (remaining: map<string, Endpoint>, ghost chunk: seq<string>)
      requires cfg.service == service && cfg.max == GetMaxEndpointsPerSlice()
      requires |sliceWithRoom.endpoints| <= cfg.max
      requires forall ip :: ip in desiredEndpoints ==> ip in cfg.want && cfg.want[ip] == desiredEndpoints[ip]
      modifies sliceWithRoom`endpoints
      ensures Taken(desiredEndpoints, remaining, chunk)
      ensures sliceWithRoom.endpoints == old(sliceWithRoom.endpoints) + Records(cfg, chunk)
      ensures |chunk| == Min(cfg.max - |old(sliceWithRoom.endpoints)|, |desiredEndpoints|)
    {
      remaining, chunk := desiredEndpoints, [];
      ghost var before := sliceWithRoom.endpoints;
      while remaining.Keys != {}
        invariant Taken(desiredEndpoints, remaining, chunk)
        invariant Placed(cfg, before, chunk, sliceWithRoom.endpoints)
        decreases |remaining|
      {
        var roomInSlice := GetMaxEndpointsPerSlice() - |sliceWithRoom.endpoints|;
        if roomInSlice <= 0 {
          break;
        }
        var key :| key in remaining.Keys;
        PlaceOne(sliceWithRoom, key, remaining[key], cfg, before, chunk);
        TakeOne(desiredEndpoints, remaining, chunk, key);
        remaining, chunk := remaining - {key}, chunk + [key];
      }
      TakenCount(desiredEndpoints, remaining, chunk);
    }

    // The records of the taken endpoints come after those the slice had before, within the maximum.
    ghost predicate Placed(cfg: Config, before: seq<SliceEndpoint>, chunk: seq<string>, after: seq<SliceEndpoint>) {
      (forall ip :: ip in chunk ==> ip in cfg.want) && after == before + Records(cfg, chunk) && |after| <= cfg.max
    }

    method PlaceOne(sliceWithRoom: EndpointSlice, key: string, endpointToAdd: Endpoint,
                    ghost cfg: Config, ghost before: seq<SliceEndpoint>, ghost chunk: seq<string>)
      requires cfg.service == service && |sliceWithRoom.endpoints| < cfg.max && Placed(cfg, before, chunk, sliceWithRoom.endpoints)
      requires key in cfg.want && cfg.want[key] == endpointToAdd
      modifies sliceWithRoom`endpoints
      ensures Placed(cfg, before, chunk + [key], sliceWithRoom.endpoints)
    {
      RecordsSnoc(cfg, before, chunk, key);
      sliceWithRoom.endpoints := sliceWithRoom.endpoints + [CreateEndpointForSlice(service, endpointToAdd)];
    }

    // One round of the outer loop
    method FillRound(changes: EndpointSliceChanges, desiredEndpoints: map<string, Endpoint>, desiredPorts: seq<Port>,
                     ghost cfg: Config, ghost st: PlanState)
      returns (remaining: map<string, Endpoint>, ghost chunk: seq<string>)
      requires At(changes, desiredEndpoints, cfg, st) && desiredEndpoints.Keys != {}
      requires cfg == ConfigWith(cfg.want, desiredPorts) && ValidConfig(cfg)
      modifies changes, current
      ensures Conserves(changes.Snapshot(), current) && Taken(desiredEndpoints, remaining, chunk) && chunk != []
      ensures NoDuplicates(current) ==>
                IsChunk(cfg, st, chunk) && remaining.Keys == Step(cfg, st, chunk).todo
                && Represents(changes, current, Step(cfg, st, chunk))
      ensures Created(old(changes.create), changes.create)
    {
      var sliceWithRoom, needsPortUpdate := GetOrCreateUnfilledEndpointSlice(changes, |desiredEndpoints|, cfg, st);
      if NoDuplicates(current) {
        OpenedPartitioned(cfg, |current|, st);
      }
      remaining, chunk := FillOpened(changes, sliceWithRoom, needsPortUpdate, desiredEndpoints, desiredPorts, cfg, Open(cfg, st));
      if NoDuplicates(current) {
        TakenIsChunk(cfg, st, desiredEndpoints, remaining, chunk);
      }
    }

    method FillOpened(changes: EndpointSliceChanges, sliceWithRoom: EndpointSlice, needsPortUpdate: bool,
                      desiredEndpoints: map<string, Endpoint>, desiredPorts: seq<Port>, ghost cfg: Config, ghost o: Opened)
      returns (remaining: map<string, Endpoint>, ghost chunk: seq<string>)
      requires HasTarget(o.st, o.target) && |sliceWithRoom.endpoints| < cfg.max && desiredEndpoints.Keys != {}
      requires NoDuplicates(current) ==>
                 Offers(changes, sliceWithRoom, needsPortUpdate, o) && Partitioned(|current|, o.st)
      requires cfg == ConfigWith(cfg.want, desiredPorts)
      requires forall ip :: ip in desiredEndpoints ==> ip in cfg.want && cfg.want[ip] == desiredEndpoints[ip]
      modifies sliceWithRoom
      ensures Taken(desiredEndpoints, remaining, chunk) && chunk != []
      ensures NoDuplicates(current) ==>
                var v := TargetSlice(o.st, o.target);
                && |chunk| == Min(cfg.max - |v.endpoints|, |desiredEndpoints|)
                && Represents(changes, current, SetTarget(o.st, o.target, Filled(cfg, v, chunk, needsPortUpdate)))
    {
      if NoDuplicates(current) {
        PartitionedIsApart(|current|, o.st);
        TargetIsOnlyThere(changes, current, o.st, sliceWithRoom, o.target);
      }
      remaining, chunk := FillSliceAndPorts(sliceWithRoom, needsPortUpdate, desiredEndpoints, desiredPorts, cfg);
      if NoDuplicates(current) {
        RefilledRepresents(changes, current, o.st, sliceWithRoom, o.target);
      }
    }

    ghost function Filled(cfg: Config, v: SliceVal, chunk: seq<string>, needsPortUpdate: bool): SliceVal
      requires forall ip :: ip in chunk ==> ip in cfg.want
    {
      SliceVal(v.endpoints + Records(cfg, chunk), if needsPortUpdate then ToEndpointPorts(cfg.ports) else v.ports)
    }

    method FillSliceAndPorts(sliceWithRoom: EndpointSlice, needsPortUpdate: bool,
                             desiredEndpoints: map<string, Endpoint>, desiredPorts: seq<Port>, ghost cfg: Config)
      returns (remaining: map<string, Endpoint>, ghost chunk: seq<string>)
      requires |sliceWithRoom.endpoints| < cfg.max && cfg == ConfigWith(cfg.want, desiredPorts)
      requires forall ip :: ip in desiredEndpoints ==> ip in cfg.want && cfg.want[ip] == desiredEndpoints[ip]
      modifies sliceWithRoom
      ensures Taken(desiredEndpoints, remaining, chunk)
      ensures |chunk| == Min(cfg.max - |old(sliceWithRoom.endpoints)|, |desiredEndpoints|)
      ensures sliceWithRoom.Val() == Filled(cfg, old(sliceWithRoom.Val()), chunk, needsPortUpdate)
    {
      remaining, chunk := FillSlice(sliceWithRoom, desiredEndpoints, cfg);
      if needsPortUpdate {
        sliceWithRoom.ports := ToEndpointPorts(desiredPorts);
      }
    }

    // populate map of desired endpoints for lookup efficiency
    method IndexDesired() returns (desiredEndpoints: map<string, Endpoint>)
      ensures desiredEndpoints == DesiredByIp(desired)
    {
      desiredEndpoints := map[];
      for i := 0 to |desired|
        invariant desiredEndpoints == DesiredByIp(desired[..i])
      {
        assert desired[..i + 1][..i] == desired[..i];
        desiredEndpoints := desiredEndpoints[desired[i].ip := desired[i]];
      }
      assert desired[..|desired|] == desired;
    }

    // The three lists always are Current, entry by entry, whatever the entries refer to; so the changes name each object
    // once exactly if Current does. What the plan is follows if Current does, and also if trimming alone does the job.
    method CalculateChanges() returns (changes: EndpointSliceChanges, ghost cfg: Config, ghost chunks: seq<seq<string>>)
      modifies current
      ensures fresh(changes)
      ensures ConfigFor(cfg, desired) && cfg == ConfigWith(cfg.want, cfg.ports)
      ensures Conserves(changes.Snapshot(), current) && (EachOnce(changes.Snapshot()) <==> NoDuplicates(current))
      ensures NoDuplicates(current) || Untouched(cfg, old(Vals(current))) ==>
                && IsPlan(cfg, old(Vals(current)), chunks)
                && Represents(changes, current, Run(cfg, old(Vals(current)), chunks))
      ensures forall c :: c in changes.create ==> fresh(c) && MadeFor(c.meta, service, serviceImportName, clusterId)
      ensures forall c, t :: c in changes.create && OneType(desired, t) ==> c.meta.addressType == t
    {
      var desiredEndpoints := IndexDesired();
      var desiredPorts := ExtractEndpointPorts(desired);
      cfg := ConfigWith(desiredEndpoints, desiredPorts);
      ghost var cur := Vals(current);

      // Remove unwanted endpoints from slices
      changes, desiredEndpoints := TrimSlices(desiredEndpoints, desiredPorts);

      // Add new endpoints to slices
      chunks := FillSlices(changes, desiredEndpoints, desiredPorts, cfg, cur);
      OnceIff(changes.Snapshot(), current);
      NewSliceMadeFor(service, serviceImportName, clusterId, CheckAddressType());
    }

    // Trimming leaves nothing to place and no slice to change.
    ghost predicate Untouched(cfg: Config, cur: seq<SliceVal>) {
      Trim(cfg, cur).update == [] && Trim(cfg, cur).todo == {}
    }

    // The changes and the map of unplaced endpoints are what the run of these chunks leaves.
    ghost predicate At(changes: EndpointSliceChanges, remaining: map<string, Endpoint>, cfg: Config, st: PlanState)
      reads changes, changes.create, changes.update, changes.delete, changes.unmodified
    {
      && Follows(changes, st)
      && (NoDuplicates(current) ==> remaining.Keys == st.todo)
      && forall ip :: ip in remaining ==> ip in cfg.want && cfg.want[ip] == remaining[ip]
    }

    // The outer loop of CalculateChanges
    method FillSlices(changes: EndpointSliceChanges, desired: map<string, Endpoint>, desiredPorts: seq<Port>,
                      ghost cfg: Config, ghost cur: seq<SliceVal>)
      returns (ghost chunks: seq<seq<string>>)
      requires |cur| == |current| && changes.create == [] && At(changes, desired, cfg, Trim(cfg, cur))
      requires Untouched(cfg, cur) ==> desired.Keys == {} && Represents(changes, current, Trim(cfg, cur))
      requires cfg == ConfigWith(cfg.want, desiredPorts) && ValidConfig(cfg)
      modifies changes, current
      ensures Conserves(changes.Snapshot(), current)
      ensures NoDuplicates(current) || Untouched(cfg, cur) ==>
                IsPlan(cfg, cur, chunks) && Represents(changes, current, Run(cfg, cur, chunks))
      ensures Created(old(changes.create), changes.create)
    {
      var desiredEndpoints := desired;
      chunks := [];
      ghost var st := Trim(cfg, cur);
      while |desiredEndpoints| > 0
        invariant At(changes, desiredEndpoints, cfg, st)
        invariant NoDuplicates(current) ==> IsRun(cfg, cur, chunks) && st == Run(cfg, cur, chunks)
        invariant Untouched(cfg, cur) ==>
                    desiredEndpoints.Keys == {} && chunks == [] && Represents(changes, current, Trim(cfg, cur))
        invariant Created(old(changes.create), changes.create)
        decreases |desiredEndpoints|
      {
        desiredEndpoints, chunks, st := FillNext(changes, desiredEndpoints, desiredPorts, cfg, cur, chunks, st);
      }
    }

    // One round, as part of the run
    method FillNext(changes: EndpointSliceChanges, desiredEndpoints: map<string, Endpoint>, desiredPorts: seq<Port>,
                    ghost cfg: Config, ghost cur: seq<SliceVal>, ghost chunks: seq<seq<string>>, ghost st: PlanState)
      returns (remaining: map<string, Endpoint>, ghost chunks': seq<seq<string>>, ghost st': PlanState)
      requires |cur| == |current| && desiredEndpoints.Keys != {} && At(changes, desiredEndpoints, cfg, st)
      requires cfg == ConfigWith(cfg.want, desiredPorts) && ValidConfig(cfg)
      requires NoDuplicates(current) ==> IsRun(cfg, cur, chunks) && st == Run(cfg, cur, chunks)
      modifies changes, current
      ensures At(changes, remaining, cfg, st') && |remaining| < |desiredEndpoints|
      ensures NoDuplicates(current) ==> IsRun(cfg, cur, chunks') && st' == Run(cfg, cur, chunks')
      ensures Created(old(changes.create), changes.create)
    {
      ghost var chunk;
      remaining, chunk := FillRound(changes, desiredEndpoints, desiredPorts, cfg, st);
      TakenCount(desiredEndpoints, remaining, chunk);
      chunks', st' := chunks + [chunk], st;
      if NoDuplicates(current) {
        RunSnoc(cfg, cur, chunks, chunk);
        RunFacts(cfg, cur, chunks');
        st' := Step(cfg, st, chunk);
      }
    }
  }
}
