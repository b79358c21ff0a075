// ServiceExportReconciler of pkg/controllers/multicluster/serviceexport_controller.go, over the Cloud Map client
// and the objects of its own Kubernetes cluster, which users change whenever they like.
module ExportController {
  import opened Common
  import opened Model
  import opened Codec
  import opened Diff
  import opened Registry
  import opened CloudMap
  import opened Client
  import opened Extract
  import opened Kube
  import opened Desired

  // What users and the API server do between the controller's calls: anything, but an object that carries a
  // finalizer stays and keeps it until its controller takes it off.
  predicate KeepsFinalizers(a: Exports, b: Exports) {
    forall key | key in a :: a[key].finalizer ==> key in b && b[key].finalizer
  }

  predicate ValidSlices(slices: map<Key, seq<ExportSlice>>) {
    forall key | key in slices :: forall s | s in slices[key] :: ValidSlice(s)
  }

  predicate ValidServices(services: map<Key, KubeService>) {
    forall key | key in services :: forall p | p in services[key].ports :: 0 <= p.port as int < PORT_LIMIT
  }

  class ExportObjects {
    var exports: Exports
    var services: map<Key, KubeService>
    var slices: map<Key, seq<ExportSlice>>
    // How many calls came back with an error other than not found.
    ghost var failures: nat
    // What the reads so far saw and the updates left, in order.
    ghost var seen: seq<Snapshot>

    constructor ()
      ensures Valid() && exports == map[]
    {
      exports, services, slices := map[], map[], map[];
      failures, seen := 0, [];
    }

    ghost predicate Valid()
      reads this
    {
      ValidSlices(slices) && ValidServices(services)
    }

    method Users()
      requires Valid()
      modifies this`exports, this`services, this`slices
      ensures Valid() && KeepsFinalizers(old(exports), exports)
    {
      var e: Exports, s: map<Key, KubeService>, l: map<Key, seq<ExportSlice>> := *, *, *;
      if KeepsFinalizers(exports, e) {
        exports := e;
      }
      if ValidSlices(l) && ValidServices(s) {
        services, slices := s, l;
      }
    }

    // A read saw the objects as they were at one moment of the call.
    twostate predicate Saw(m: Snapshot)
      reads this
    {
      && seen == old(seen) + [m]
      && KeepsFinalizers(old(exports), m.exports) && KeepsFinalizers(m.exports, exports)
      && ValidSlices(m.slices) && ValidServices(m.services)
    }

    method Look() returns (ghost m: Snapshot)
      requires Valid()
      modifies this`exports, this`services, this`slices, this`seen
      ensures Valid() && m == Snapshot(exports, services, slices) && seen == old(seen) + [m]
      ensures KeepsFinalizers(old(exports), exports)
    {
      Users();
      m := Snapshot(exports, services, slices);
      seen := seen + [m];
    }

    method GetExport(key: Key) returns (r: Lookup<ServiceExport>, ghost m: Snapshot)
      requires Valid()
      modifies this
      ensures Valid() && Saw(m)
      ensures r.Found? ==> key in m.exports && r.value == m.exports[key]
      ensures r.Missing? ==> key !in m.exports
      ensures failures == old(failures) + if r.Broken? then 1 else 0
    {
      m := Look();
      r := if key in exports then Found(exports[key]) else Missing;
      Users();
      r := MayBreak(r);
    }

    method MayBreak<T>(answer: Lookup<T>) returns (r: Lookup<T>)
      modifies this`failures
      ensures r == answer || r.Broken?
      ensures failures == old(failures) + if r.Broken? then 1 else 0
    {
      var failed: bool, text: string := *, *;
      r := if failed then Broken(NewError(text)) else answer;
      failures := failures + if r.Broken? then 1 else 0;
    }

    method GetService(key: Key) returns (r: Lookup<KubeService>, ghost m: Snapshot)
      requires Valid()
      modifies this
      ensures Valid() && Saw(m)
      ensures r.Found? ==> key in m.services && r.value == m.services[key]
      ensures r.Missing? ==> key !in m.services
      ensures failures == old(failures) + if r.Broken? then 1 else 0
    {
      m := Look();
      r := if key in services then Found(services[key]) else Missing;
      r := MayBreak(r);
    }

    method ListSlices(key: Key) returns (r: Result<seq<ExportSlice>>, ghost m: Snapshot)
      requires Valid()
      modifies this
      ensures Valid() && Saw(m)
      ensures r.Ok? ==> r.value == SlicesAt(m, key)
      ensures failures == old(failures) + if r.Err? then 1 else 0
    {
      m := Look();
      var failed: bool, text: string := *, *;
      r := if failed then Err(NewError(text)) else Ok(if key in slices then slices[key] else []);
      failures := failures + if r.Err? then 1 else 0;
    }

    // An update with an old version is refused. An object being deleted goes with its last finalizer.
    method UpdateExport(key: Key, copy: ServiceExport) returns (r: Result<ServiceExport>, ghost m: Snapshot)
      requires Valid()
      modifies this
      ensures Valid() && seen == old(seen) + [m] && (r.Ok? ==> Leaves(m, key, copy))
      ensures forall k :: k != key && k in old(exports) && old(exports)[k].finalizer ==> k in exports && exports[k].finalizer
      ensures r.Ok? && copy.finalizer ==> key in exports && exports[key].finalizer
      ensures r.Ok? ==> r.value.finalizer == copy.finalizer && r.value.hasOwner == copy.hasOwner
      ensures r.Err? || copy.finalizer ==> KeepsFinalizers(old(exports), exports)
      ensures failures == old(failures) + if r.Err? then 1 else 0
    {
      Users();
      var failed: bool, text: string, version: nat := *, *, *;
      if failed || key !in exports || exports[key].version != copy.version {
        r := Err(NewError(text));
        failures := failures + 1;
      } else {
        var stored := copy.(version := version);
        if stored.deleting && !stored.finalizer {
          exports := exports - {key};
        } else {
          exports := exports[key := stored];
        }
        r := Ok(stored);
      }
      m := Snapshot(exports, services, slices);
      seen := seen + [m];
      Users();
    }
  }

  // An update with this copy went through: the object is as the copy says, or gone with its last finalizer.
  ghost predicate Leaves(m: Snapshot, key: Key, copy: ServiceExport) {
    if copy.deleting && !copy.finalizer then key !in m.exports
    else key in m.exports && m.exports[key].finalizer == copy.finalizer && m.exports[key].hasOwner == copy.hasOwner
  }

  ghost predicate OwnedAt(m: Snapshot, key: Key) {
    key in m.exports && m.exports[key].hasOwner && m.exports[key].finalizer
  }

  // The export is gone, or free to go.
  ghost predicate Freed(m: Snapshot, key: Key) {
    key in m.exports ==> !m.exports[key].finalizer
  }

  lemma {:induction false} OfClusterHas(es: seq<Endpoint>, clusterId: string, e: Endpoint)
    ensures e in OfCluster(es, clusterId) <==> e in es && e.clusterId == clusterId
  {
    if es != [] {
      OfClusterHas(es[..|es| - 1], clusterId, e);
      assert es == es[..|es| - 1] + [es[|es| - 1]];
    }
  }

  lemma {:induction false} OfClusterDistinct(es: seq<Endpoint>, clusterId: string)
    requires DistinctIds(es)
    ensures DistinctIds(OfCluster(es, clusterId))
  {
    if es != [] {
      var init, last := es[..|es| - 1], es[|es| - 1];
      OfClusterDistinct(init, clusterId);
      forall i | 0 <= i < |OfCluster(init, clusterId)| ensures OfCluster(init, clusterId)[i].id != last.id {
        OfClusterHas(init, clusterId, OfCluster(init, clusterId)[i]);
      }
    }
  }

  // The cluster's endpoints of a distinct list are the cluster's part of the map it lists.
  lemma OfClusterById(es: seq<Endpoint>, clusterId: string)
    requires DistinctIds(es)
    ensures ById(OfCluster(es, clusterId)) == OwnOf(ById(es), clusterId)
  {
    var own := OfCluster(es, clusterId);
    OfClusterDistinct(es, clusterId);
    forall id ensures id in ById(own) <==> id in OwnOf(ById(es), clusterId)
      ensures id in ById(own) ==> ById(own)[id] == ById(es)[id]
    {
      if id in ById(own) {
        OfClusterHas(es, clusterId, ById(own)[id]);
        SameIdSame(es, ById(own)[id], ById(es)[id]);
      } else if id in OwnOf(ById(es), clusterId) {
        OfClusterHas(es, clusterId, ById(es)[id]);
        assert false;
      }
    }
  }

  // ---- What the logged operations amount to ----

  function Registered(log: seq<Effect>): seq<Endpoint> {
    if log == [] then [] else
      Registered(log[..|log| - 1]) + if log[|log| - 1].Register? then [log[|log| - 1].e] else []
  }

  lemma {:induction false} RegisteredHas(log: seq<Effect>, e: Endpoint)
    ensures e in Registered(log) <==> Register(e) in log
  {
    if log != [] {
      RegisteredHas(log[..|log| - 1], e);
      assert log == log[..|log| - 1] + [log[|log| - 1]];
    }
  }

  lemma {:induction false} RegisteringPuts(own: map<string, Endpoint>, log: seq<Effect>)
    requires forall eff :: eff in log ==> eff.Register?
    ensures ApplyAll(own, log) == PutAll(own, Registered(log))
  {
    if log != [] {
      var init, last := log[..|log| - 1], log[|log| - 1];
      assert log == init + [last];
      RegisteringPuts(own, init);
      assert Registered(log)[..|Registered(log)| - 1] == Registered(init);
    }
  }

  function Deregistered(log: seq<Effect>): set<string> {
    set eff | eff in log && eff.Deregister? :: eff.id
  }

  lemma {:induction false} DeregisteringRemoves(own: map<string, Endpoint>, log: seq<Effect>)
    requires forall eff :: eff in log ==> eff.Deregister?
    ensures ApplyAll(own, log) == own - Deregistered(log)
  {
    if log == [] {
      assert own - {} == own;
    } else {
      var init, last := log[..|log| - 1], log[|log| - 1];
      assert log == init + [last];
      DeregisteringRemoves(own, init);
      assert Deregistered(log) == Deregistered(init) + {last.id};
    }
  }

  // All upserts registered and all deletes deregistered: the cluster's part is what it wants.
  lemma AppliedReaches(c: Changes, current: seq<Endpoint>, desired: seq<Endpoint>, log: seq<Effect>, log': seq<Effect>,
                       own: map<string, Endpoint>, own': map<string, Endpoint>)
    requires IsDiff(c, current, desired) && own == ById(current)
    requires own' == ApplyAll(ApplyAll(own, log), log')
    requires forall eff :: eff in log ==> eff in Registrations(c.create + c.update)
    requires forall e :: e in c.create + c.update ==> Register(e) in log
    requires (forall eff :: eff in log' ==> eff in Deregistrations(c.delete)) && forall e :: e in c.delete ==> Deregister(e.id) in log'
    ensures Reaches(own', desired)
  {
    RegisteringPuts(own, log);
    forall e ensures e in Registered(log) <==> e in c.create + c.update { RegisteredHas(log, e); }
    DeregisteringRemoves(ApplyAll(own, log), log');
    assert Deregistered(log') == Ids(c.delete) by {
      forall id | id in Ids(c.delete) ensures id in Deregistered(log') {
        var e :| e in c.delete && e.id == id;
        assert Deregister(e.id) in log';
      }
    }
    DiffReaches(c, current, desired, Registered(log));
  }

  // The cluster's part has exactly the desired ids, and is exactly the desired endpoints when no id repeats.
  ghost predicate Reaches(own: map<string, Endpoint>, desired: seq<Endpoint>) {
    && own.Keys == Ids(desired)
    && (forall id :: id in own ==> own[id] in desired)
    && (DistinctIds(desired) ==> own == ById(desired))
  }

  // ---- The finalizer ----

  // An export with instances of this cluster in the registry exists and carries the finalizer.
  ghost predicate Guarded(w: World, exports: Exports, setId: string, clusterId: string) {
    forall ns, name :: OwnAt(w, ns, name, setId, clusterId) != map[] ==> (ns, name) in exports && exports[(ns, name)].finalizer
  }

  lemma GuardedOn(w: World, w': World, exports: Exports, exports': Exports, setId: string, clusterId: string)
    requires Guarded(w, exports, setId, clusterId) && Grows(w, w', setId, clusterId) && KeepsFinalizers(exports, exports')
    ensures Guarded(w', exports', setId, clusterId)
  {
  }

  // Writing instances of a service is safe while its export carries the finalizer.
  lemma GuardedWrite(w: World, w': World, ns: string, name: string, log: seq<Effect>, exports: Exports, setId: string, clusterId: string)
    requires Guarded(w, exports, setId, clusterId) && Wrote(w, w', ns, name, log, setId, clusterId)
    requires (ns, name) in exports && exports[(ns, name)].finalizer
    ensures Guarded(w', exports, setId, clusterId)
  {
  }

  // Taking the finalizer off is safe once no instance is left.
  lemma GuardedRelease(w: World, exports: Exports, exports': Exports, key: Key, setId: string, clusterId: string)
    requires Guarded(w, exports, setId, clusterId) && OwnAt(w, key.0, key.1, setId, clusterId) == map[]
    requires forall k :: k != key && k in exports && exports[k].finalizer ==> k in exports' && exports'[k].finalizer
    ensures Guarded(w, exports', setId, clusterId)
  {
  }

  // ---- What a reconciliation should do ----

  datatype Outcome = Skipped | Withdrawn | Exported(serviceExport: ServiceExport, service: KubeService)

  // What the export and the service that were read call for.
  function Decision(key: Key, exportAt: Snapshot, serviceAt: Snapshot): Outcome {
    if key !in exportAt.exports then Skipped
    else if exportAt.exports[key].deleting || key !in serviceAt.services then
      if exportAt.exports[key].finalizer then Withdrawn else Skipped
    else Exported(exportAt.exports[key], serviceAt.services[key])
  }

  // After each of the logged operations, the cluster's part holds all the ids it began with, or all that are wanted.
  ghost predicate Unbroken(own: map<string, Endpoint>, log: seq<Effect>, want: set<string>) {
    forall n :: 0 <= n <= |log| ==> HoldsAll(ApplyAll(own, log[..n]), own.Keys, want)
  }

  predicate HoldsAll(own: map<string, Endpoint>, had: set<string>, want: set<string>) {
    had <= own.Keys || want <= own.Keys
  }

  // ---- The reconciler ----

  class ServiceExportReconciler {
    const kube: ExportObjects
    const cloudMap: ServiceDiscoveryClient
    const version: string

    constructor (kube: ExportObjects, cloudMap: ServiceDiscoveryClient, version: string)
      requires kube.Valid() && cloudMap.Coherent()
      requires Guarded(cloudMap.api.world, kube.exports, cloudMap.api.setId, cloudMap.api.clusterId)
      ensures Valid() && this.kube == kube && this.cloudMap == cloudMap
    {
      this.kube, this.cloudMap, this.version := kube, cloudMap, version;
    }

    ghost predicate Valid()
      reads this, kube, cloudMap, cloudMap.api, cloudMap.cache
    {
      && kube.Valid() && cloudMap.Coherent()
      && Guarded(cloudMap.api.world, kube.exports, cloudMap.api.setId, cloudMap.api.clusterId)
    }

    ghost function OwnNow(key: Key): map<string, Endpoint>
      reads cloudMap, cloudMap.api
    {
      OwnAt(cloudMap.api.world, key.0, key.1, cloudMap.api.setId, cloudMap.api.clusterId)
    }

    // Of this cluster's instances, only those of one service changed.
    twostate predicate OnlyTouched(key: Key)
      reads cloudMap, cloudMap.api
    {
      KeptElsewhere(old(cloudMap.api.world), cloudMap.api.world, key, cloudMap.api.setId, cloudMap.api.clusterId)
    }

    // Some call came back with an error, or the cluster's properties are not there.
    twostate predicate Complained()
      reads this, kube, cloudMap, cloudMap.api
    {
      kube.failures > old(kube.failures) || cloudMap.api.failures > old(cloudMap.api.failures) || cloudMap.properties.Err?
    }

    twostate predicate CountsUp()
      reads this, kube, cloudMap, cloudMap.api
    {
      && kube.failures >= old(kube.failures) && cloudMap.api.failures >= old(cloudMap.api.failures)
      && old(cloudMap.known) <= cloudMap.known && old(kube.seen) <= kube.seen
    }

    // One of the reads since the call began saw this.
    twostate predicate SawSince(m: Snapshot)
      reads this, kube
    {
      |old(kube.seen)| <= |kube.seen| && m in kube.seen[|old(kube.seen)|..]
    }

    // The log is what this cluster applied since, in order, and its part of the service changed by just that.
    twostate predicate Applied(key: Key, log: seq<Effect>)
      reads this, cloudMap, cloudMap.api
    {
      && cloudMap.api.applied == old(cloudMap.api.applied) + Operations(key.0, key.1, log)
      && OwnNow(key) == ApplyAll(old(OwnNow(key)), log)
    }

    ghost function DesiredBy(m: Snapshot, key: Key, serviceExport: ServiceExport, service: KubeService): seq<Endpoint> {
      DesiredAt(m, key, serviceExport, service, cloudMap.api.setId, cloudMap.api.clusterId, version)
    }

    // The registry shows what the slices were at this moment, endpoint by endpoint.
    ghost predicate PresentsNow(key: Key, m: Snapshot, serviceExport: ServiceExport, service: KubeService)
      reads cloudMap, cloudMap.api
    {
      Presented(OwnNow(key), SlicesAt(m, key), serviceExport, service, cloudMap.api.setId, cloudMap.api.clusterId, version)
    }

    lemma NowPresents(key: Key, m: Snapshot, serviceExport: ServiceExport, service: KubeService)
      requires Reaches(OwnNow(key), DesiredBy(m, key, serviceExport, service))
      ensures PresentsNow(key, m, serviceExport, service)
    {
      ReachedPresents(OwnNow(key), m, key, serviceExport, service, cloudMap.api.setId, cloudMap.api.clusterId, version);
    }

    ghost predicate HasFinalizer(key: Key)
      reads kube
    {
      key in kube.exports && kube.exports[key].finalizer
    }

    // Between two reconciliations users, other clusters and time do what they like; the invariant stays,
    // and so does every instance of this cluster.
    method Meanwhile(limit: nat)
      requires Valid()
      modifies kube, cloudMap.api`now, cloudMap.api`world
      ensures Valid() && Grows(old(cloudMap.api.world), cloudMap.api.world, cloudMap.api.setId, cloudMap.api.clusterId)
    {
      ghost var w, exports := cloudMap.api.world, kube.exports;
      cloudMap.Meanwhile(limit);
      kube.Users();
      GuardedOn(w, cloudMap.api.world, exports, kube.exports, cloudMap.api.setId, cloudMap.api.clusterId);
    }

    // An export without an owner is given one: `owned` is what the update that did it left.
    method AddFinalizerAndOwnerRef(key: Key, serviceExport: ServiceExport) returns (err: Option<Error>, ghost owned: Snapshot)
      requires Valid() && (serviceExport.finalizer ==> HasFinalizer(key))
      modifies kube
      ensures Valid() && (err == None ==> HasFinalizer(key))
      ensures err == None && !serviceExport.hasOwner ==>
                SawSince(owned) && OwnedAt(owned, key)
      ensures KeepsFinalizers(old(kube.exports), kube.exports)
      ensures CountsUp()
      ensures err.Some? ==> Complained()
    {
      err, owned := None, Snapshot(map[], map[], map[]);
      var copy := serviceExport;
      // Add the finalizer to the service export if not present, ensures the ServiceExport won't be deleted
      if !copy.finalizer {
        var r, _ := kube.UpdateExport(key, copy.(finalizer := true));
        if r.Err? {
          err := Some(r.error);
        } else {
          copy := r.value;
        }
      }
      if err == None && !copy.hasOwner {
        ghost var seen := kube.seen;
        var r;
        r, owned := kube.UpdateExport(key, copy.(hasOwner := true));
        SeenLast(old(kube.seen), seen, owned);
        if r.Err? {
          err := Some(r.error);
        }
      }
    }

    method CreateOrGetCloudMapService(key: Key) returns (r: Result<Service>)
      requires Valid() && ':' !in key.1
      modifies cloudMap`known, cloudMap.api, cloudMap.cache`defaultCache, cloudMap.cache`endpointsCache
      ensures Valid() && OwnNow(key) == old(OwnNow(key)) && OnlyTouched(key) && cloudMap.api.applied == old(cloudMap.api.applied)
      ensures r.Err? ==> !r.error.notFound
      ensures r.Ok? ==> DistinctIds(r.value.endpoints) && OwnOf(ById(r.value.endpoints), cloudMap.api.clusterId) == OwnNow(key)
      ensures CountsUp() && (r.Err? ==> Complained()) && (r.Ok? ==> key in cloudMap.known)
    {
      r := cloudMap.GetService(key.0, key.1);
      if r.Err? && r.error.notFound {
        var err := cloudMap.CreateService(key.0, key.1);
        if err.Some? {
          r := Err(err.value);
        } else {
          r := cloudMap.GetService(key.0, key.1);
        }
      }
    }

    method ExtractDesired(key: Key, serviceExport: ServiceExport, service: KubeService)
      returns (r: Result<seq<Endpoint>>, ghost listed: Snapshot)
      requires Valid() && forall p :: p in service.ports ==> 0 <= p.port as int < PORT_LIMIT
      modifies kube
      ensures Valid() && KeepsFinalizers(old(kube.exports), kube.exports)
      ensures r.Ok? ==> SawSince(listed) && r.value == DesiredBy(listed, key, serviceExport, service)
      ensures r.Ok? ==> forall e :: e in r.value ==> Exportable(e, cloudMap.api.setId, cloudMap.api.clusterId)
      ensures CountsUp()
      ensures r.Err? ==> Complained()
    {
      var slices;
      slices, listed := kube.ListSlices(key);
      if cloudMap.properties.Err? {
        r := Err(cloudMap.properties.error);
      } else if slices.Err? {
        r := Err(slices.error);
      } else {
        var ports := PortsByName(service.ports);
        var serviceType := if service.clusterIP == "None" then "Headless" else "ClusterSetIP";
        var ctx := Context(ports, cloudMap.api.clusterId, cloudMap.api.setId, serviceType, serviceExport.created, VersionAttributes(version));
        var endpoints := ExtractEndpoints(ctx, slices.value);
        ExtractedExportable(ctx, slices.value);
        r := Ok(endpoints);
      }
    }

    method PortsByName(ports: seq<Port>) returns (m: map<string, Port>)
      ensures m == ByName(ports)
    {
      m := map[];
      for i := 0 to |ports|
        invariant m == ByName(ports[..i])
      {
        assert ports[..i + 1][..i] == ports[..i];
        m := m[ports[i].name := ports[i]];
      }
      assert ports[..|ports|] == ports;
    }

    method GetOwnEndpoints(es: seq<Endpoint>) returns (endpts: seq<Endpoint>)
      ensures endpts == OfCluster(es, cloudMap.api.clusterId)
    {
      endpts := [];
      for i := 0 to |es|
        invariant endpts == OfCluster(es[..i], cloudMap.api.clusterId)
      {
        assert es[..i + 1][..i] == es[..i];
        if es[i].clusterId == cloudMap.api.clusterId {
          endpts := endpts + [es[i]];
        }
      }
      assert es[..|es|] == es;
    }

    // The registry comes to hold what the slices listed on the way ask for.
    method HandleUpdate(key: Key, serviceExport: ServiceExport, service: KubeService)
      returns (err: Option<Error>, ghost listed: Snapshot, ghost log: seq<Effect>, ghost owned: Snapshot)
      requires Valid() && ':' !in key.1 && (serviceExport.finalizer ==> HasFinalizer(key))
      requires forall p :: p in service.ports ==> 0 <= p.port as int < PORT_LIMIT
      modifies kube, cloudMap`known, cloudMap.api, cloudMap.cache`defaultCache, cloudMap.cache`endpointsCache
      ensures Valid() && OnlyTouched(key) && Applied(key, log)
      ensures err == None || log != [] ==> SawSince(listed) && HasFinalizer(key)
      ensures err == None ==> Reaches(OwnNow(key), DesiredBy(listed, key, serviceExport, service))
      ensures err == None ==> PresentsNow(key, listed, serviceExport, service)
      ensures Unbroken(old(OwnNow(key)), log, Ids(DesiredBy(listed, key, serviceExport, service)))
      ensures (err == None || log != []) && !serviceExport.hasOwner ==> SawSince(owned) && OwnedAt(owned, key)
      ensures CountsUp()
      ensures err.Some? ==> Complained()
    {
      listed, log := Snapshot(map[], map[], map[]), [];
      err, owned := AddFinalizerAndOwnerRef(key, serviceExport);
      ghost var seen := kube.seen;
      if err == None {
        var cmService := CreateOrGetCloudMapService(key);
        if cmService.Err? {
          err := Some(cmService.error);
        } else {
          var current := GetOwnEndpoints(cmService.value.endpoints);
          OfClusterById(cmService.value.endpoints, cloudMap.api.clusterId);
          err, listed, log := UpdateInstances(key, serviceExport, service, current);
          SeenLater(old(kube.seen), seen, kube.seen, owned);
          if err == None { NowPresents(key, listed, serviceExport, service); }
        }
      }
    }

    // The rest of HandleUpdate
    method UpdateInstances(key: Key, serviceExport: ServiceExport, service: KubeService, current: seq<Endpoint>)
      returns (err: Option<Error>, ghost listed: Snapshot, ghost log: seq<Effect>)
      requires Valid() && ':' !in key.1 && HasFinalizer(key) && key in cloudMap.known && ById(current) == OwnNow(key)
      requires forall p :: p in service.ports ==> 0 <= p.port as int < PORT_LIMIT
      modifies kube, cloudMap`known, cloudMap.api, cloudMap.cache`defaultCache, cloudMap.cache`endpointsCache
      ensures Valid() && OnlyTouched(key) && Applied(key, log) && HasFinalizer(key)
      ensures err == None || log != [] ==> SawSince(listed)
      ensures err == None ==> Reaches(OwnNow(key), DesiredBy(listed, key, serviceExport, service))
      ensures Unbroken(old(OwnNow(key)), log, Ids(DesiredBy(listed, key, serviceExport, service)))
      ensures CountsUp()
      ensures err.Some? ==> Complained()
    {
      log := [];
      var endpoints;
      endpoints, listed := ExtractDesired(key, serviceExport, service);
      if endpoints.Err? {
        err := Some(endpoints.error);
      } else {
        // Compute diff between Cloud Map and K8s endpoints, and apply changes
        err, log := ApplyChanges(key, current, endpoints.value);
      }
    }

    // However far this gets, at every step the registry holds all ids it held before or all desired ones.
    method ApplyChanges(key: Key, current: seq<Endpoint>, desired: seq<Endpoint>) returns (err: Option<Error>, ghost log: seq<Effect>)
      requires Valid() && ':' !in key.1 && HasFinalizer(key) && key in cloudMap.known && ById(current) == OwnNow(key)
      requires forall e :: e in desired ==> Exportable(e, cloudMap.api.setId, cloudMap.api.clusterId)
      modifies kube, cloudMap`known, cloudMap.api, cloudMap.cache`defaultCache, cloudMap.cache`endpointsCache
      ensures Valid() && HasFinalizer(key) && OnlyTouched(key) && Applied(key, log)
      ensures err == None ==> Reaches(OwnNow(key), desired)
      ensures Unbroken(old(OwnNow(key)), log, Ids(desired))
      ensures CountsUp()
      ensures err.Some? ==> Complained()
    {
      var changes := CalculateChanges(current, desired);
      ghost var own, upserted, removed := OwnNow(key), [], [];
      UpsertsExportable(changes, current, desired, cloudMap.api.setId, cloudMap.api.clusterId);
      // merge creates and updates (Cloud Map RegisterEndpoints can handle both)
      err, upserted := RegisterUpserts(key, changes.create + changes.update);
      if err == None {
        err, removed := DeregisterStale(key, changes.delete);
      }
      log := upserted + removed;
      AppliedTwice(old(cloudMap.api.applied), key.0, key.1, upserted, removed);
      ChangesApplied(changes, current, desired, upserted, removed, own, err == None);
    }

    method RegisterUpserts(key: Key, upserts: seq<Endpoint>) returns (err: Option<Error>, ghost log: seq<Effect>)
      requires Valid() && ':' !in key.1 && HasFinalizer(key) && key in cloudMap.known
      requires forall e :: e in upserts ==> Exportable(e, cloudMap.api.setId, cloudMap.api.clusterId)
      modifies kube, cloudMap`known, cloudMap.api, cloudMap.cache`defaultCache, cloudMap.cache`endpointsCache
      ensures Valid() && HasFinalizer(key) && OnlyTouched(key) && Applied(key, log)
      ensures forall eff :: eff in log ==> eff in Registrations(upserts)
      ensures err == None ==> forall e :: e in upserts ==> Register(e) in log
      ensures CountsUp()
      ensures err.Some? ==> Complained()
    {
      err, log := None, [];
      if upserts != [] {
        ghost var w := cloudMap.api.world;
        err, log := cloudMap.RegisterEndpoints(key.0, key.1, upserts);
        GuardedWrite(w, cloudMap.api.world, key.0, key.1, log, kube.exports, cloudMap.api.setId, cloudMap.api.clusterId);
      }
      kube.Users();
    }

    method DeregisterStale(key: Key, endpts: seq<Endpoint>) returns (err: Option<Error>, ghost log: seq<Effect>)
      requires Valid() && ':' !in key.1 && HasFinalizer(key) && key in cloudMap.known
      modifies kube, cloudMap`known, cloudMap.api, cloudMap.cache`defaultCache, cloudMap.cache`endpointsCache
      ensures Valid() && HasFinalizer(key) && OnlyTouched(key) && Applied(key, log)
      ensures forall eff :: eff in log ==> eff in Deregistrations(endpts)
      ensures err == None ==> forall e :: e in endpts ==> Deregister(e.id) in log
      ensures CountsUp()
      ensures err.Some? ==> Complained()
    {
      err, log := None, [];
      if endpts != [] {
        ghost var w := cloudMap.api.world;
        err, log := cloudMap.DeleteEndpoints(key.0, key.1, endpts);
        GuardedWrite(w, cloudMap.api.world, key.0, key.1, log, kube.exports, cloudMap.api.setId, cloudMap.api.clusterId);
      }
      kube.Users();
    }

    // `freed` is what taking the finalizer off left.
    method HandleDelete(key: Key, serviceExport: ServiceExport) returns (err: Option<Error>, ghost freed: Snapshot, ghost log: seq<Effect>)
      requires Valid() && ':' !in key.1 && (serviceExport.finalizer ==> HasFinalizer(key))
      modifies kube, cloudMap`known, cloudMap.api, cloudMap.cache`defaultCache, cloudMap.cache`endpointsCache
      ensures Valid() && OnlyTouched(key) && Applied(key, log)
      ensures if serviceExport.finalizer then err == None ==> OwnNow(key) == map[] else err == None && log == []
      ensures serviceExport.finalizer && err == None ==> SawSince(freed) && Freed(freed, key)
      ensures serviceExport.finalizer && err == None && serviceExport.deleting ==> key !in freed.exports
      ensures CountsUp()
      ensures err.Some? ==> Complained()
    {
      err, freed, log := None, Snapshot(map[], map[], map[]), [];
      if serviceExport.finalizer {
        err, log := DeleteOwn(key);
        if err == None {
          // Remove finalizer. Once all finalizers have been
          // removed, the ServiceExport object will be deleted.
          ghost var before, seen := kube.exports, kube.seen;
          var r;
          r, freed := kube.UpdateExport(key, serviceExport.(finalizer := false));
          SeenLast(old(kube.seen), seen, freed);
          GuardedRelease(cloudMap.api.world, before, kube.exports, key, cloudMap.api.setId, cloudMap.api.clusterId);
          if r.Err? {
            err := Some(r.error);
          }
        }
      }
    }

    // The first half of HandleDelete: no instance of this cluster is left unless there was an error.
    method DeleteOwn(key: Key) returns (err: Option<Error>, ghost log: seq<Effect>)
      requires Valid() && ':' !in key.1 && HasFinalizer(key)
      modifies kube, cloudMap`known, cloudMap.api, cloudMap.cache`defaultCache, cloudMap.cache`endpointsCache
      ensures Valid() && OnlyTouched(key) && Applied(key, log)
      ensures err == None ==> OwnNow(key) == map[]
      ensures CountsUp()
      ensures err.Some? ==> Complained()
    {
      log := [];
      var cmService := cloudMap.GetService(key.0, key.1);
      if cmService.Err? {
        err := if cmService.error.notFound then None else Some(cmService.error);
      } else {
        var own := GetOwnEndpoints(cmService.value.endpoints);
        OfClusterById(cmService.value.endpoints, cloudMap.api.clusterId);
        err, log := DeregisterStale(key, own);
        if err == None {
          NothingLeft(ById(own), own, log);
        }
      }
    }

    // What is done is decided by the export and the service read on the way. Unless some call failed, an export that
    // calls for it is brought to what its slices asked for at a moment of the call, and one that is to go is taken out of the
    // registry and left without the finalizer.
    method Reconcile(key: Key)
      returns (err: Option<Error>, ghost outcome: Outcome, ghost exportAt: Snapshot, ghost serviceAt: Snapshot,
               ghost at: Snapshot, ghost log: seq<Effect>)
      requires Valid() && ':' !in key.1
      modifies kube, cloudMap`known, cloudMap.api, cloudMap.cache`defaultCache, cloudMap.cache`endpointsCache
      ensures Valid() && OnlyTouched(key) && Applied(key, log)
      ensures (outcome == Skipped && Complained()) || Decided(key, outcome, exportAt, serviceAt)
      ensures Delivers(key, outcome, err == None, at, log, old(OwnNow(key)))
      ensures Rests(outcome, err == None, log) ==> SawSince(at)
      ensures CountsUp()
      ensures err.Some? ==> Complained()
      // an export with instances in the registry is not skipped
      ensures old(OwnNow(key)) != map[] ==> Complained() || outcome != Skipped
    {
      err, outcome, at, log := None, Skipped, Snapshot(map[], map[], map[]), [];
      var serviceExport, service;
      serviceExport, service, exportAt, serviceAt := ReadObjects(key);
      assert cloudMap.api.world == old(cloudMap.api.world) && cloudMap.api.applied == old(cloudMap.api.applied);
      if serviceExport.Found? && !service.Broken? {
        err, outcome, at, log := DispatchSeen(key, serviceExport.value, service, old(kube.seen), exportAt, serviceAt);
      }
    }

    // Dispatch, for a reconciliation that began when `before` had been seen
    method DispatchSeen(key: Key, serviceExport: ServiceExport, service: Lookup<KubeService>,
                        ghost before: seq<Snapshot>, ghost exportAt: Snapshot, ghost serviceAt: Snapshot)
      returns (err: Option<Error>, ghost outcome: Outcome, ghost at: Snapshot, ghost log: seq<Effect>)
      requires Valid() && ':' !in key.1 && !service.Broken? && (serviceExport.finalizer ==> HasFinalizer(key))
      requires service.Found? ==> forall p :: p in service.value.ports ==> 0 <= p.port as int < PORT_LIMIT
      requires before <= kube.seen && exportAt in kube.seen[|before|..] && serviceAt in kube.seen[|before|..]
      requires key in exportAt.exports && serviceExport == exportAt.exports[key]
      requires if service.Found? then key in serviceAt.services && service.value == serviceAt.services[key]
               else key !in serviceAt.services
      modifies kube, cloudMap`known, cloudMap.api, cloudMap.cache`defaultCache, cloudMap.cache`endpointsCache
      ensures Valid() && OnlyTouched(key) && Applied(key, log)
      ensures before <= kube.seen && exportAt in kube.seen[|before|..] && serviceAt in kube.seen[|before|..]
      ensures cloudMap.properties.Ok? ==> outcome == Decision(key, exportAt, serviceAt)
      ensures cloudMap.properties.Err? ==> outcome == Skipped
      ensures Delivers(key, outcome, err == None, at, log, old(OwnNow(key)))
      ensures Rests(outcome, err == None, log) ==> at in kube.seen[|before|..]
      ensures CountsUp()
      ensures err.Some? ==> Complained()
    {
      err, outcome, at, log := Dispatch(key, serviceExport, service);
      SeenLater(before, old(kube.seen), kube.seen, exportAt);
      SeenLater(before, old(kube.seen), kube.seen, serviceAt);
      SeenLater(before, old(kube.seen), kube.seen, at);
    }

    // The two reads Reconcile begins with
    method ReadObjects(key: Key)
      returns (serviceExport: Lookup<ServiceExport>, service: Lookup<KubeService>, ghost exportAt: Snapshot, ghost serviceAt: Snapshot)
      requires Valid()
      modifies kube
      ensures Valid() && CountsUp() && KeepsFinalizers(old(kube.exports), kube.exports)
      ensures KeepsFinalizers(old(kube.exports), exportAt.exports)
      ensures serviceExport.Broken? || service.Broken? ==> kube.failures > old(kube.failures)
      ensures SawSince(exportAt) && (serviceExport.Found? ==> SawSince(serviceAt))
      ensures serviceExport.Found? ==> key in exportAt.exports && serviceExport.value == exportAt.exports[key]
      ensures serviceExport.Missing? ==> key !in exportAt.exports
      ensures service.Found? ==> key in serviceAt.services && service.value == serviceAt.services[key]
      ensures serviceExport.Found? && service.Missing? ==> key !in serviceAt.services
      ensures service.Found? ==> forall p :: p in service.value.ports ==> 0 <= p.port as int < PORT_LIMIT
      ensures serviceExport.Found? && serviceExport.value.finalizer ==> HasFinalizer(key)
    {
      serviceExport, exportAt := kube.GetExport(key);
      service, serviceAt := Missing, exportAt;
      assert kube.seen[|old(kube.seen)|..] == [exportAt];
      if serviceExport.Found? {
        service, serviceAt := kube.GetService(key);
        assert kube.seen[|old(kube.seen)|..] == [exportAt, serviceAt];
      }
    }

    // The outcome is what the export and the service call for that were read since the call began.
    twostate predicate Decided(key: Key, outcome: Outcome, exportAt: Snapshot, serviceAt: Snapshot)
      reads this, kube
    {
      && SawSince(exportAt) && (key in exportAt.exports ==> SawSince(serviceAt))
      && outcome == Decision(key, exportAt, serviceAt)
    }

    // What was done rests on a moment of the call: the slices were listed then, or the finalizer was off then.
    ghost predicate Rests(outcome: Outcome, ok: bool, log: seq<Effect>) {
      match outcome
      case Skipped => false
      case Withdrawn => ok
      case Exported(_, _) => ok || log != []
    }

    // `before` is the cluster's part as it was.
    ghost predicate Delivers(key: Key, outcome: Outcome, ok: bool, at: Snapshot, log: seq<Effect>, before: map<string, Endpoint>)
      reads this, kube, cloudMap, cloudMap.api
    {
      match outcome
      case Skipped => log == []
      case Withdrawn => ok ==> OwnNow(key) == map[] && Freed(at, key)
      case Exported(serviceExport, service) =>
        var desired := DesiredBy(at, key, serviceExport, service);
        && (ok ==> HasFinalizer(key) && Reaches(OwnNow(key), desired) && PresentsNow(key, at, serviceExport, service))
        && Unbroken(before, log, Ids(desired))
    }

    // The rest of Reconcile
    method Dispatch(key: Key, serviceExport: ServiceExport, service: Lookup<KubeService>)
      returns (err: Option<Error>, ghost outcome: Outcome, ghost at: Snapshot, ghost log: seq<Effect>)
      requires Valid() && ':' !in key.1 && !service.Broken? && (serviceExport.finalizer ==> HasFinalizer(key))
      requires service.Found? ==> forall p :: p in service.value.ports ==> 0 <= p.port as int < PORT_LIMIT
      modifies kube, cloudMap`known, cloudMap.api, cloudMap.cache`defaultCache, cloudMap.cache`endpointsCache
      ensures Valid() && OnlyTouched(key) && Applied(key, log)
      ensures Delivers(key, outcome, err == None, at, log, old(OwnNow(key)))
      ensures Rests(outcome, err == None, log) ==> SawSince(at)
      ensures cloudMap.properties.Err? ==> outcome == Skipped
      ensures cloudMap.properties.Ok? ==>
              outcome == if serviceExport.deleting || service.Missing? then (if serviceExport.finalizer then Withdrawn else Skipped)
                         else Exported(serviceExport, service.value)
      ensures CountsUp()
      ensures err.Some? ==> Complained()
    {
      err, outcome, at, log := None, Skipped, Snapshot(map[], map[], map[]), [];
      if cloudMap.properties.Err? {
        err := Some(cloudMap.properties.error);
      } else if serviceExport.deleting || service.Missing? {
        // Mark ServiceExport to be deleted, if the corresponding Service is not found
        err, at, log := HandleDelete(key, serviceExport);
        outcome := if serviceExport.finalizer then Withdrawn else Skipped;
      } else {
        ghost var owned;
        err, at, log, owned := HandleUpdate(key, serviceExport, service.value);
        outcome := Exported(serviceExport, service.value);
      }
    }
  }

  ghost predicate KeptElsewhere(a: World, b: World, key: Key, setId: string, clusterId: string) {
    forall ns, name :: (ns, name) != key ==> OwnAt(b, ns, name, setId, clusterId) == OwnAt(a, ns, name, setId, clusterId)
  }

  lemma {:induction false} ApplyBoth(own: map<string, Endpoint>, a: seq<Effect>, b: seq<Effect>)
    ensures ApplyAll(own, a + b) == ApplyAll(ApplyAll(own, a), b)
  {
    if b == [] {
      assert a + b == a;
    } else {
      assert (a + b)[..|a + b| - 1] == a + b[..|b| - 1];
      ApplyBoth(own, a, b[..|b| - 1]);
    }
  }

  lemma UpsertsExportable(c: Changes, current: seq<Endpoint>, desired: seq<Endpoint>, setId: string, clusterId: string)
    requires IsDiff(c, current, desired) && forall e :: e in desired ==> Exportable(e, setId, clusterId)
    ensures forall e :: e in c.create + c.update ==> Exportable(e, setId, clusterId)
  {
    DeletesAreUndesired(c, current, desired);
  }

  // The upserts were registered, all of them if anything was deregistered, and all deletes too if all went well.
  lemma ChangesApplied(c: Changes, current: seq<Endpoint>, desired: seq<Endpoint>, upserted: seq<Effect>, removed: seq<Effect>,
                       own: map<string, Endpoint>, ok: bool)
    requires IsDiff(c, current, desired) && own == ById(current)
    requires forall eff :: eff in upserted ==> eff in Registrations(c.create + c.update)
    requires forall eff :: eff in removed ==> eff in Deregistrations(c.delete)
    requires removed != [] || ok ==> forall e :: e in c.create + c.update ==> Register(e) in upserted
    requires ok ==> forall e :: e in c.delete ==> Deregister(e.id) in removed
    ensures ApplyAll(own, upserted + removed) == ApplyAll(ApplyAll(own, upserted), removed)
    ensures Unbroken(own, upserted + removed, Ids(desired))
    ensures ok ==> Reaches(ApplyAll(own, upserted + removed), desired)
  {
    ApplyBoth(own, upserted, removed);
    if removed != [] { RegisteredAll(c, current, desired, upserted, own); }
    NeverBroken(c, current, desired, upserted, removed, own);
    if ok { AppliedReaches(c, current, desired, upserted, removed, own, ApplyAll(own, upserted + removed)); }
  }

  // Registering loses nothing, and deregistering starts only when all that is wanted is there.
  lemma NeverBroken(c: Changes, current: seq<Endpoint>, desired: seq<Endpoint>, upserted: seq<Effect>, removed: seq<Effect>,
                    own: map<string, Endpoint>)
    requires IsDiff(c, current, desired) && own == ById(current)
    requires forall eff :: eff in upserted ==> eff.Register?
    requires forall eff :: eff in removed ==> eff in Deregistrations(c.delete)
    requires removed != [] ==> Ids(desired) <= ApplyAll(own, upserted).Keys
    ensures Unbroken(own, upserted + removed, Ids(desired))
  {
    var log := upserted + removed;
    DeletesAreUndesired(c, current, desired);
    forall n | 0 <= n <= |log| ensures HoldsAll(ApplyAll(own, log[..n]), own.Keys, Ids(desired)) {
      if n <= |upserted| {
        assert log[..n] == upserted[..n];
        RegisteringKeeps(own, upserted[..n]);
      } else {
        assert log[..n] == upserted + removed[..n - |upserted|];
        ApplyBoth(own, upserted, removed[..n - |upserted|]);
        DeregisteringKeeps(ApplyAll(own, upserted), c.delete, removed[..n - |upserted|], Ids(desired));
      }
    }
  }

  lemma RegisteringKeeps(own: map<string, Endpoint>, log: seq<Effect>)
    requires forall eff :: eff in log ==> eff.Register?
    ensures own.Keys <= ApplyAll(own, log).Keys
  {
    RegisteringPuts(own, log);
    forall id | id in own ensures id in PutAll(own, Registered(log)) { PutAllAt(own, Registered(log), id); }
  }

  // Once every upsert was registered, every desired id is there.
  lemma RegisteredAll(c: Changes, current: seq<Endpoint>, desired: seq<Endpoint>, log: seq<Effect>, own: map<string, Endpoint>)
    requires IsDiff(c, current, desired) && own == ById(current)
    requires (forall eff :: eff in log ==> eff.Register?) && forall e :: e in c.create + c.update ==> Register(e) in log
    ensures Ids(desired) <= ApplyAll(own, log).Keys
  {
    RegisteringPuts(own, log);
    forall id | id in Ids(desired) ensures id in PutAll(own, Registered(log)) {
      PutAllAt(own, Registered(log), id);
      UpsertedOrUpToDate(own, desired, id);
      if e :| e in c.create + c.update && e.id == id {
        RegisteredHas(log, e);
        assert e in Registered(log);
      }
    }
  }

  lemma DeregisteringKeeps(own: map<string, Endpoint>, endpts: seq<Endpoint>, log: seq<Effect>, want: set<string>)
    requires (forall eff :: eff in log ==> eff in Deregistrations(endpts)) && want <= own.Keys && want !! Ids(endpts)
    ensures want <= ApplyAll(own, log).Keys
  {
    DeregisteringRemoves(own, log);
    forall id | id in Deregistered(log) ensures id in Ids(endpts) {
      var eff :| eff in log && eff.Deregister? && eff.id == id;
      assert eff in Deregistrations(endpts);
      var i :| 0 <= i < |endpts| && Deregistrations(endpts)[i] == eff;
      assert endpts[i] in endpts;
    }
  }

  lemma SeenLater(before: seq<Snapshot>, between: seq<Snapshot>, after: seq<Snapshot>, m: Snapshot)
    requires before <= between <= after
    ensures m in between[|before|..] ==> m in after[|before|..]
    ensures m in after[|between|..] ==> m in after[|before|..]
  {
    assert after == before + between[|before|..] + after[|between|..];
  }

  lemma SeenLast(before: seq<Snapshot>, between: seq<Snapshot>, m: Snapshot)
    requires before <= between
    ensures before <= between + [m] && m in (between + [m])[|before|..]
  {
    assert (between + [m])[|before|..] == between[|before|..] + [m];
  }

  lemma AppliedTwice(before: seq<Operation>, ns: string, svc: string, a: seq<Effect>, b: seq<Effect>)
    ensures before + Operations(ns, svc, a) + Operations(ns, svc, b) == before + Operations(ns, svc, a + b)
    ensures before + Operations(ns, svc, a) == before + Operations(ns, svc, a + [])
  {
    OperationsConcat(ns, svc, a, b);
    assert a + [] == a;
  }

  lemma NothingLeft(own: map<string, Endpoint>, es: seq<Endpoint>, log: seq<Effect>)
    requires own == ById(es)
    requires (forall eff :: eff in log ==> eff in Deregistrations(es)) && forall e :: e in es ==> Deregister(e.id) in log
    ensures ApplyAll(own, log) == map[]
  {
    DeregisteringRemoves(own, log);
    forall id | id in own ensures id in Deregistered(log) {
      assert own[id] in es && Deregister(own[id].id) in log;
    }
  }
}
