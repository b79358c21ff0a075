// CloudMapReconciler of pkg/controllers/multicluster/cloudmap_controller.go: the imports of one namespace and the
// derived service each import has for each cluster that exports it.
module Import {
  import opened Common
  import opened Model
  import opened Ports
  import opened SliceSpec
  import opened Client
  import opened CloudMap
  import opened Kube
  import opened Registry

  datatype ServiceImport = ServiceImport(ips: seq<string>, type_: string, ports: seq<Port>, clusters: seq<string>)

  // A derived service, the cluster it stands for, and the endpoints its slices are to have
  datatype Plan = Plan(derived: string, clusterId: string, endpoints: seq<Endpoint>)

  // A run of the reconciler over a namespace: the (import, cluster) pairs in use if their derived names are apart, and
  // None if some collide, since then nothing is promised about derived services; and what had been planned before.
  datatype Round = Round(live: Option<set<(string, string)>>, before: multiset<Plan>)

  type Services = map<string, KubeService>
  type Imports = map<string, ServiceImport>

  // What the API server holds at one moment, with what was planned until then
  datatype Objects = Objects(imports: Imports, services: Services, planned: multiset<Plan>)

  // The digest of the three names put together without a separator.
  function DerivedName(digest: string -> string, ns: string, name: string, clusterId: string): string {
    "imported-" + digest(ns + name + clusterId)
  }

  // Two services get the same derived name whatever the digest is exactly when their names run together alike.
  lemma DerivedNamesCollideIff(ns: string, name: string, c: string, ns': string, name': string, c': string)
    ensures (forall digest: string -> string :: DerivedName(digest, ns, name, c) == DerivedName(digest, ns', name', c'))
            <==> ns + name + c == ns' + name' + c'
  {
    if forall digest: string -> string :: DerivedName(digest, ns, name, c) == DerivedName(digest, ns', name', c') {
      var same: string -> string := s => s;
      assert DerivedName(same, ns, name, c) == DerivedName(same, ns', name', c');
      var a, b := "imported-" + (ns + name + c), "imported-" + (ns' + name' + c');
      assert a[|"imported-"|..] == ns + name + c && b[|"imported-"|..] == ns' + name' + c';
    }
  }

  lemma DerivedNamesCanCollide(digest: string -> string, ns: string)
    ensures DerivedName(digest, ns, "web", "1-east") == DerivedName(digest, ns, "web1", "-east")
  {
    assert ns + "web" + "1-east" == ns + "web1" + "-east";
  }

  function Clusters(es: seq<Endpoint>): set<string> {
    set e | e in es :: e.clusterId
  }

  // The ports have the ids of the endpoints' service ports, each once.
  ghost predicate HasServicePorts(ports: seq<Port>, es: seq<Endpoint>) {
    multiset(PortIds(ports)) == multiset(UniquePorts(ServicePorts(es)).Keys)
  }

  // ---- The derived services of a namespace ----

  // live lists the (import, cluster) pairs in use. A derived name belongs to one of them, and its service says so.
  ghost predicate WellNamed(digest: string -> string, ns: string, live: set<(string, string)>, services: Services) {
    && (forall p, q :: p in live && q in live && DerivedName(digest, ns, p.0, p.1) == DerivedName(digest, ns, q.0, q.1) ==> p == q)
    && (forall p :: p in live && DerivedName(digest, ns, p.0, p.1) in services ==>
          services[DerivedName(digest, ns, p.0, p.1)].labels == Some(p))
    && (forall d :: d in services && services[d].labels.Some? ==>
          services[d].labels.value in live && d == DerivedName(digest, ns, services[d].labels.value.0, services[d].labels.value.1))
  }

  // d is a derived service of the import.
  predicate DerivedFrom(services: Services, d: string, name: string) {
    d in services && services[d].labels.Some? && services[d].labels.value.0 == name
  }

  // The import's derived services correspond one to one to the clusters of its endpoints, each with its cluster's ports.
  ghost predicate DerivedMatch(digest: string -> string, ns: string, services: Services, name: string, es: seq<Endpoint>) {
    && (forall c :: c in Clusters(es) ==> DerivedFor(digest, ns, services, name, es, c))
    && (forall d :: DerivedFrom(services, d, name) ==> services[d].labels.value.1 in Clusters(es))
  }

  ghost predicate DerivedFor(digest: string -> string, ns: string, services: Services, name: string, es: seq<Endpoint>, c: string) {
    var d := DerivedName(digest, ns, name, c);
    d in services && services[d].labels == Some((name, c)) && HasServicePorts(services[d].ports, OfCluster(es, c))
  }

  // Nothing changed but derived services of the import.
  ghost predicate OnlyDerived(a: Services, b: Services, name: string) {
    && (forall d :: d in a && !DerivedFrom(a, d, name) ==> d in b && b[d] == a[d])
    && (forall d :: d in b && !DerivedFrom(b, d, name) ==> d in a && a[d] == b[d])
  }

  lemma OnlyDerivedOn(a: Services, b: Services, c: Services, name: string)
    requires OnlyDerived(a, b, name) && OnlyDerived(b, c, name)
    ensures OnlyDerived(a, c, name)
  {
  }

  // One import's derived services do not depend on another's.
  lemma MatchKept(digest: string -> string, ns: string, a: Services, b: Services, name: string, other: string, es: seq<Endpoint>)
    requires OnlyDerived(a, b, name) && name != other && DerivedMatch(digest, ns, a, other, es)
    ensures DerivedMatch(digest, ns, b, other, es)
  {
    forall c | c in Clusters(es) ensures DerivedFor(digest, ns, b, other, es, c) {
      assert DerivedFor(digest, ns, a, other, es, c);
    }
    forall d | DerivedFrom(b, d, other) ensures b[d].labels.value.1 in Clusters(es) {
      assert DerivedFrom(a, d, other);
    }
  }

  // ---- The API server ----

  class ImportObjects {
    var imports: Imports
    var services: Services
    // How many calls failed for a reason of the server's own.
    ghost var failures: nat
    // The plans that were applied, and the services all of whose slices were deleted, with how often.
    ghost var planned: multiset<Plan>
    ghost var swept: multiset<string>

    constructor (imports: Imports, services: Services)
      ensures this.imports == imports && this.services == services
    {
      this.imports, this.services := imports, services;
      failures, planned, swept := 0, multiset{}, multiset{};
    }

    method Fails() returns (err: Option<Error>)
      modifies this`failures
      ensures failures == old(failures) + if err.Some? then 1 else 0
    {
      var failed: bool, text: string := *, *;
      err := if failed then Some(NewError(text)) else None;
      failures := failures + if failed then 1 else 0;
    }

    // Plan the slices of a derived service and apply the changes
    method UpdateEndpointSlices(d: string, clusterId: string, endpoints: seq<Endpoint>) returns (err: Option<Error>)
      modifies this`failures, this`planned
      ensures planned == old(planned) + if err == None then multiset{Plan(d, clusterId, endpoints)} else multiset{}
      ensures old(failures) <= failures
      ensures err.Some? ==> failures > old(failures)
    {
      err := Fails();
      planned := planned + if err == None then multiset{Plan(d, clusterId, endpoints)} else multiset{};
    }

    // DeleteAllOf the slices selected for a service
    method DeleteEndpointSlices(d: string) returns (err: Option<Error>)
      modifies this`failures, this`swept
      ensures swept == old(swept) + if err == None then multiset{d} else multiset{}
      ensures old(failures) <= failures
      ensures err.Some? ==> failures > old(failures)
    {
      err := Fails();
      swept := swept + if err == None then multiset{d} else multiset{};
    }

    method ListImports() returns (r: Result<Imports>)
      modifies this`failures
      ensures r.Ok? ==> r.value == imports
      ensures old(failures) <= failures
      ensures r.Err? ==> failures > old(failures)
    {
      var failed := Fails();
      r := if failed.Some? then Err(failed.value) else Ok(imports);
    }

    method GetImport(name: string) returns (r: Lookup<ServiceImport>)
      modifies this`failures
      ensures r.Found? ==> name in imports && r.value == imports[name]
      ensures r.Missing? ==> name !in imports
      ensures old(failures) <= failures
      ensures r.Broken? ==> failures > old(failures)
    {
      var failed := Fails();
      r := if failed.Some? then Broken(failed.value) else if name in imports then Found(imports[name]) else Missing;
    }

    method CreateImport(name: string, i: ServiceImport) returns (err: Option<Error>)
      modifies this`imports, this`failures
      ensures imports == if err == None then old(imports)[name := i] else old(imports)
      ensures old(failures) <= failures
      ensures err.Some? ==> failures > old(failures) || name in imports
    {
      err := Fails();
      if err == None {
        if name in imports {
          err := Some(NewError("AlreadyExists"));
        } else {
          imports := imports[name := i];
        }
      }
    }

    method UpdateImport(name: string, i: ServiceImport) returns (err: Option<Error>)
      modifies this`imports, this`failures
      ensures imports == if err == None then old(imports)[name := i] else old(imports)
      ensures err == None ==> name in old(imports)
      ensures old(failures) <= failures
      ensures err.Some? ==> failures > old(failures) || name !in imports
    {
      err := Fails();
      if err == None {
        if name in imports {
          imports := imports[name := i];
        } else {
          err := Some(NewError("NotFound"));
        }
      }
    }

    method DeleteImport(name: string) returns (err: Option<Error>)
      modifies this`imports, this`failures
      ensures imports == if err == None then old(imports) - {name} else old(imports)
      ensures old(failures) <= failures
      ensures err.Some? ==> failures > old(failures)
    {
      err := Fails();
      if err == None {
        imports := imports - {name};
      }
    }

    method GetService(d: string) returns (r: Lookup<KubeService>)
      modifies this`failures
      ensures r.Found? ==> d in services && r.value == services[d]
      ensures r.Missing? ==> d !in services
      ensures old(failures) <= failures
      ensures r.Broken? ==> failures > old(failures)
    {
      var failed := Fails();
      r := if failed.Some? then Broken(failed.value) else if d in services then Found(services[d]) else Missing;
    }

    // The server gives a service without a cluster IP one.
    method CreateService(d: string, s: KubeService) returns (err: Option<Error>)
      modifies this`services, this`failures
      ensures err.Some? ==> services == old(services)
      ensures err == None ==> d !in old(services) && d in services && services == old(services)[d := services[d]]
      ensures err == None ==> services[d] == s.(clusterIP := services[d].clusterIP)
                              && (s.clusterIP != "" ==> services[d].clusterIP == s.clusterIP)
      ensures old(failures) <= failures
      ensures err.Some? ==> failures > old(failures) || d in services
    {
      err := Fails();
      if err == None {
        if d in services {
          err := Some(NewError("AlreadyExists"));
        } else {
          var ip: string := *;
          services := services[d := if s.clusterIP != "" then s else s.(clusterIP := ip)];
        }
      }
    }

    method UpdateService(d: string, s: KubeService) returns (err: Option<Error>)
      modifies this`services, this`failures
      ensures services == if err == None then old(services)[d := s] else old(services)
      ensures err == None ==> d in old(services)
      ensures old(failures) <= failures
      ensures err.Some? ==> failures > old(failures) || d !in services
    {
      err := Fails();
      if err == None {
        if d in services {
          services := services[d := s];
        } else {
          err := Some(NewError("NotFound"));
        }
      }
    }

    // List by the label that names the import, in any order.
    method ListDerived(name: string) returns (r: Result<set<string>>)
      modifies this`failures
      ensures r.Ok? ==> forall d :: d in r.value <==> DerivedFrom(services, d, name)
      ensures old(failures) <= failures
      ensures r.Err? ==> failures > old(failures)
    {
      var failed := Fails();
      r := if failed.Some? then Err(failed.value) else Ok(set d | d in services && DerivedFrom(services, d, name));
    }

    method DeleteService(d: string) returns (err: Option<Error>)
      modifies this`services, this`failures
      ensures services == if err == None then old(services) - {d} else old(services)
      ensures old(failures) <= failures
      ensures err.Some? ==> failures > old(failures)
    {
      err := Fails();
      if err == None {
        services := services - {d};
      }
    }
  }

  // ---- What one step does to the services ----

  // Nothing but service d changed, and what is there afterwards is labelled p.
  ghost predicate OnlyService(a: Services, b: Services, d: string, p: (string, string)) {
    && (forall k :: k != d ==> (k in b <==> k in a) && (k in a ==> b[k] == a[k]))
    && (d in a ==> d in b && a[d].labels == b[d].labels)
    && (d in b ==> b[d].labels == Some(p))
  }

  lemma NamedAfter(digest: string -> string, ns: string, live: set<(string, string)>, a: Services, b: Services, p: (string, string))
    requires WellNamed(digest, ns, live, a) && p in live && OnlyService(a, b, DerivedName(digest, ns, p.0, p.1), p)
    ensures WellNamed(digest, ns, live, b) && OnlyDerived(a, b, p.0)
  {
  }

  // Bringing one cluster's derived service up to date leaves the import's others alone.
  lemma OtherClustersKept(digest: string -> string, ns: string, live: set<(string, string)>, a: Services, b: Services,
                          name: string, es: seq<Endpoint>, c: string, done: set<string>)
    requires WellNamed(digest, ns, live, a) && (name, c) in live && c !in done && done <= Clusters(es)
    requires forall c :: c in Clusters(es) ==> (name, c) in live
    requires OnlyService(a, b, DerivedName(digest, ns, name, c), (name, c))
    requires forall k :: k in done ==> DerivedFor(digest, ns, a, name, es, k)
    ensures forall k :: k in done ==> DerivedFor(digest, ns, b, name, es, k)
  {
    forall k | k in done ensures DerivedFor(digest, ns, b, name, es, k) {
      assert DerivedFor(digest, ns, a, name, es, k);
      assert (name, k) in live && (name, k) != (name, c);
    }
  }

  // Removing a derived service of a cluster that has no endpoints any more keeps those of the others.
  lemma StaleRemoved(digest: string -> string, ns: string, live: set<(string, string)>, a: Services, d: string,
                     svc: Service, clusterIds: seq<string>, clusterIPs: seq<string>)
    requires WellNamed(digest, ns, live, a) && DerivedFrom(a, d, svc.name) && a[d].labels.value.1 !in Clusters(svc.endpoints)
    requires ToSet(clusterIds) == Clusters(svc.endpoints) && HasDerived(digest, ns, a, svc, clusterIds, clusterIPs)
    ensures WellNamed(digest, ns, live, a - {d}) && OnlyDerived(a, a - {d}, svc.name)
    ensures HasDerived(digest, ns, a - {d}, svc, clusterIds, clusterIPs)
  {
    forall c | c in ToSet(clusterIds)
      ensures DerivedFor(digest, ns, a - {d}, svc.name, svc.endpoints, c) && DerivedName(digest, ns, svc.name, c) != d
    {
      assert DerivedFor(digest, ns, a, svc.name, svc.endpoints, c);
    }
    forall k | 0 <= k < |clusterIds| ensures IPIs(a - {d}, DerivedName(digest, ns, svc.name, clusterIds[k]), clusterIPs[k]) {
      assert clusterIds[k] in ToSet(clusterIds);
      assert IPIs(a, DerivedName(digest, ns, svc.name, clusterIds[k]), clusterIPs[k]);
    }
  }

  // Service import ports carry no target port.
  function ToImportPorts(ports: seq<Port>): seq<Port> {
    seq(|ports|, i requires 0 <= i < |ports| => ports[i].(targetPort := ""))
  }

  lemma ImportPortIds(ports: seq<Port>)
    ensures PortIds(ToImportPorts(ports)) == PortIds(ports)
  {
  }

  lemma ListedPortsMatch(ports: seq<Port>, es: seq<Endpoint>)
    requires Lists(ports, UniquePorts(ServicePorts(es)))
    ensures HasServicePorts(ports, es)
  {
  }

  // The ports of an import say what the given ports say, up to the target port.
  ghost predicate ImportsPorts(written: seq<Port>, ports: seq<Port>) {
    && |written| == |ports|
    && forall i :: 0 <= i < |ports| ==>
         written[i].name == ports[i].name && written[i].port == ports[i].port
         && written[i].protocol == ports[i].protocol && written[i].targetPort == ""
  }

  // A new import is headless if the service is, and names its clusters; one that was there keeps its type and its clusters.
  ghost predicate Announced(a: Imports, b: Imports, svc: Service, clusterIds: seq<string>)
    requires svc.endpoints != []
  {
    svc.name in b ==>
      if svc.name in a then b[svc.name].type_ == a[svc.name].type_ && b[svc.name].clusters == a[svc.name].clusters
      else b[svc.name].clusters == clusterIds
           && if svc.endpoints[0].serviceType == "Headless" then b[svc.name].type_ == "Headless" else b[svc.name].type_ == "ClusterSetIP"
  }

  // Services made for a headless import have no cluster IP, and those that were there keep theirs.
  ghost predicate KeptOrMade(a: Services, b: Services, headless: bool) {
    && (forall d :: d in a && d in b ==> b[d].clusterIP == a[d].clusterIP)
    && (headless ==> forall d :: d in b && d !in a ==> b[d].clusterIP == "None")
  }

  ghost predicate OnlyRemoves(a: Services, b: Services) {
    forall d :: d in b ==> d in a && b[d] == a[d]
  }

  lemma KeptOrMadeOn(a: Services, b: Services, c: Services, headless: bool)
    requires KeptOrMade(a, b, headless) && a.Keys <= b.Keys
    requires KeptOrMade(b, c, headless) || OnlyRemoves(b, c)
    ensures KeptOrMade(a, c, headless)
  {
  }

  // ---- The reconciler ----

  class CloudMapReconciler {
    const kube: ImportObjects
    const cloudMap: ServiceDiscoveryClient
    const namespaceName: string
    const digest: string -> string

    constructor (kube: ImportObjects, cloudMap: ServiceDiscoveryClient, namespaceName: string, digest: string -> string)
      ensures this.kube == kube && this.cloudMap == cloudMap && this.namespaceName == namespaceName && this.digest == digest
    {
      this.kube, this.cloudMap, this.namespaceName, this.digest := kube, cloudMap, namespaceName, digest;
    }

    function NameOf(name: string, clusterId: string): string {
      DerivedName(digest, namespaceName, name, clusterId)
    }

    ghost predicate Named(round: Round)
      reads this, kube
    {
      && round.before <= kube.planned
      && (round.live.Some? ==> WellNamed(digest, namespaceName, round.live.value, kube.services))
    }

    ghost function RoundFor(kubeServices: Services, services: seq<Service>, planned: multiset<Plan>): Round {
      Round(NamesInUse(digest, namespaceName, kubeServices, services), planned)
    }

    // What the planner is asked to do for one cluster of a service
    function PlanFor(svc: Service, clusterId: string): Plan {
      Plan(NameOf(svc.name, clusterId), clusterId, OfCluster(svc.endpoints, clusterId))
    }

    // It was asked, and the changes were applied, for these clusters in this round.
    ghost predicate PlannedIn(planned: multiset<Plan>, svc: Service, clusters: set<string>, round: Round) {
      forall c :: c in clusters ==> planned[PlanFor(svc, c)] > round.before[PlanFor(svc, c)]
    }

    predicate InUse(round: Round, svc: Service) {
      round.live.Some? ==> forall c :: c in Clusters(svc.endpoints) ==> (svc.name, c) in round.live.value
    }

    twostate predicate OnlyDerivedOf(round: Round, name: string)
      reads this, kube
    {
      round.live.Some? ==> OnlyDerived(old(kube.services), kube.services, name)
    }

    // There is no failure without a failed call, and nothing planned or swept is forgotten.
    twostate predicate Counts(failed: bool)
      reads kube
    {
      && old(kube.failures) <= kube.failures && (failed ==> kube.failures > old(kube.failures))
      && old(kube.planned) <= kube.planned && old(kube.swept) <= kube.swept
    }

    // A service that is gone had its slices deleted first.
    twostate predicate Swept()
      reads kube
    {
      forall d :: d in old(kube.services) && d !in kube.services ==> kube.swept[d] > old(kube.swept)[d]
    }

    method GroupByCluster(es: seq<Endpoint>) returns (m: map<string, seq<Endpoint>>)
      ensures m.Keys == Clusters(es) && forall c :: c in m ==> m[c] == OfCluster(es, c)
    {
      m := map[];
      for i := 0 to |es|
        invariant m.Keys == Clusters(es[..i]) && forall c :: c in m ==> m[c] == OfCluster(es[..i], c)
      {
        var c := es[i].clusterId;
        GroupNext(es, i);
        m := m[c := (if c in m then m[c] else []) + [es[i]]];
      }
      assert es[..|es|] == es;
    }

    // get or create derived Service of a cluster, and bring its ports up to date
    method SyncDerivedService(name: string, headless: bool, clusterId: string, es: seq<Endpoint>) returns (r: Result<KubeService>)
      modifies kube`services, kube`failures
      ensures var d, p := NameOf(name, clusterId), (name, clusterId);
              LabelledAs(old(kube.services), d, p) ==> OnlyService(old(kube.services), kube.services, d, p)
      ensures r.Ok? ==> var d := NameOf(name, clusterId);
                        d in kube.services && kube.services[d] == r.value && HasServicePorts(r.value.ports, OfCluster(es, clusterId))
      ensures old(kube.services).Keys <= kube.services.Keys && KeptOrMade(old(kube.services), kube.services, headless)
      ensures Counts(r.Err?)
    {
      var d := NameOf(name, clusterId);
      var endpoints := EndpointsOfCluster(es, clusterId);
      var clusterImportedSvcPorts := ExtractServicePorts(endpoints);
      ListedPortsMatch(clusterImportedSvcPorts, endpoints);
      var derivedService := GetOrCreateDerived(d, (name, clusterId), headless, clusterImportedSvcPorts);
      if derivedService.Err? {
        r := derivedService;
      } else {
        r := UpdateDerivedService(d, derivedService.value, clusterImportedSvcPorts);
      }
    }

    method EndpointsOfCluster(es: seq<Endpoint>, clusterId: string) returns (own: seq<Endpoint>)
      ensures own == OfCluster(es, clusterId)
    {
      var m := GroupByCluster(es);
      own := if clusterId in m then m[clusterId] else [];
      if clusterId !in m { NoneOfCluster(es, clusterId); }
    }

    method GetOrCreateDerived(d: string, p: (string, string), headless: bool, ports: seq<Port>) returns (r: Result<KubeService>)
      modifies kube`services, kube`failures
      ensures LabelledAs(old(kube.services), d, p) ==> OnlyService(old(kube.services), kube.services, d, p)
      ensures r.Ok? ==> d in kube.services && kube.services[d] == r.value
      ensures r.Ok? && d !in old(kube.services) ==> r.value.labels == Some(p) && r.value.ports == ports
      ensures old(kube.services).Keys <= kube.services.Keys && KeptOrMade(old(kube.services), kube.services, headless)
      ensures Counts(r.Err?)
    {
      var found := kube.GetService(d);
      if found.Missing? {
        // create derived Service if it doesn't exist
        var err := kube.CreateService(d, KubeService(Some(p), ports, if headless then "None" else ""));
        if err.Some? {
          found := Broken(err.value);
        } else {
          found := kube.GetService(d);
        }
      }
      r := match found
           case Found(s) => Ok(s)
           case Missing => Err(NewError("NotFound"))
           case Broken(e) => Err(e);
    }

    method UpdateDerivedService(d: string, svc: KubeService, importedSvcPorts: seq<Port>) returns (r: Result<KubeService>)
      requires d in kube.services && kube.services[d] == svc
      modifies kube`services, kube`failures
      ensures d in kube.services && kube.services == old(kube.services)[d := kube.services[d]]
      ensures kube.services[d] == svc.(ports := kube.services[d].ports)
      ensures r.Ok? ==> r.value == kube.services[d] && PortsEqualIgnoreOrder(importedSvcPorts, r.value.ports)
      ensures kube.services[d].ports == svc.ports || kube.services[d].ports == importedSvcPorts
      ensures Counts(r.Err?)
    {
      if PortsEqualIgnoreOrder(importedSvcPorts, svc.ports) {
        r := Ok(svc);
      } else {
        var updated := svc.(ports := importedSvcPorts);
        var err := kube.UpdateService(d, updated);
        r := if err.Some? then Err(err.value) else Ok(updated);
      }
    }

    method UpdateServiceImport(name: string, svcImport: ServiceImport, clusterIPs: seq<string>, importedSvcPorts: seq<Port>)
      returns (err: Option<Error>)
      requires name in kube.imports && kube.imports[name] == svcImport
      modifies kube`imports, kube`failures
      ensures name in kube.imports && kube.imports == old(kube.imports)[name := kube.imports[name]]
      ensures kube.imports[name] == svcImport.(ips := kube.imports[name].ips, ports := kube.imports[name].ports)
      ensures kube.imports[name].ports == svcImport.ports || ImportsPorts(kube.imports[name].ports, importedSvcPorts)
      ensures err == None ==> multiset(kube.imports[name].ips) == multiset(clusterIPs)
      ensures err == None ==> multiset(PortIds(kube.imports[name].ports)) == multiset(PortIds(importedSvcPorts))
      ensures Counts(err.Some?)
    {
      var updated, updateRequired := svcImport, false;
      if multiset(svcImport.ips) != multiset(clusterIPs) {
        updated, updateRequired := updated.(ips := clusterIPs), true;
      }
      // ServiceImport ports do not have TargetPort, exclude field for purpose of comparison
      ImportPortIds(importedSvcPorts);
      if !PortsEqualIgnoreOrder(svcImport.ports, ToImportPorts(importedSvcPorts)) {
        updated, updateRequired := updated.(ports := ToImportPorts(importedSvcPorts)), true;
      }
      err := None;
      if updateRequired {
        err := kube.UpdateImport(name, updated);
      }
    }

    method GetOrCreateImport(svc: Service, ports: seq<Port>, clusterIds: seq<string>) returns (r: Result<ServiceImport>)
      requires svc.endpoints != []
      modifies kube`imports, kube`failures
      ensures OnlyImport(old(kube.imports), kube.imports, svc.name)
      ensures r.Ok? ==> svc.name in kube.imports && kube.imports[svc.name] == r.value
      ensures r.Ok? && svc.name !in old(kube.imports) ==> ImportsPorts(r.value.ports, ports)
      ensures Announced(old(kube.imports), kube.imports, svc, clusterIds)
      ensures Counts(r.Err?)
    {
      var found := kube.GetImport(svc.name);
      if found.Missing? {
        // create ServiceImport if it doesn't exist
        var importType := if svc.endpoints[0].serviceType == "Headless" then "Headless" else "ClusterSetIP";
        var err := kube.CreateImport(svc.name, ServiceImport([], importType, ToImportPorts(ports), clusterIds));
        if err.Some? {
          found := Broken(err.value);
        } else {
          found := kube.GetImport(svc.name);
        }
      }
      r := match found
           case Found(i) => Ok(i)
           case Missing => Err(NewError("NotFound"))
           case Broken(e) => Err(e);
    }

    // Ranging over the clusters: each once, in any order.
    method ListClusters(clusters: set<string>) returns (clusterIds: seq<string>)
      ensures NoDuplicates(clusterIds) && ToSet(clusterIds) == clusters
    {
      clusterIds := [];
      var rest := clusters;
      while rest != {}
        invariant rest <= clusters && NoDuplicates(clusterIds) && ToSet(clusterIds) == clusters - rest
        decreases rest
      {
        var c :| c in rest;
        assert ToSet(clusterIds + [c]) == ToSet(clusterIds) + {c};
        clusterIds, rest := clusterIds + [c], rest - {c};
      }
    }

    // The loop over the clusters of one service
    method SyncClusters(svc: Service, headless: bool, clusterIds: seq<string>, ghost round: Round)
      returns (err: Option<Error>, clusterIPs: seq<string>)
      requires Named(round) && InUse(round, svc) && NoDuplicates(clusterIds) && ToSet(clusterIds) == Clusters(svc.endpoints)
      modifies kube`services, kube`failures, kube`planned
      ensures Named(round) && OnlyDerivedOf(round, svc.name)
      ensures old(kube.services).Keys <= kube.services.Keys && KeptOrMade(old(kube.services), kube.services, headless)
      ensures err == None ==> SyncedUpTo(svc, clusterIds, clusterIPs, round)
      ensures Counts(err.Some?)
    {
      err, clusterIPs := None, [];
      var i := 0;
      while i < |clusterIds| && err == None
        invariant i <= |clusterIds| && Named(round) && OnlyDerivedOf(round, svc.name)
        invariant old(kube.services).Keys <= kube.services.Keys && KeptOrMade(old(kube.services), kube.services, headless)
        invariant Counts(err.Some?)
        invariant err == None ==> SyncedUpTo(svc, clusterIds[..i], clusterIPs, round)
      {
        ghost var before := kube.services;
        err, clusterIPs := SyncCluster(svc, headless, clusterIds, i, clusterIPs, round);
        KeptOrMadeOn(old(kube.services), before, kube.services, headless);
        i := i + 1;
      }
      assert clusterIds[..|clusterIds|] == clusterIds;
    }

    // Each of these clusters has its derived service, with the IP that was collected for it.
    ghost predicate SyncedUpTo(svc: Service, done: seq<string>, clusterIPs: seq<string>, round: Round)
      reads this, kube
    {
      && PlannedIn(kube.planned, svc, ToSet(done), round)
      && (round.live.Some? ==> HasDerived(digest, namespaceName, kube.services, svc, done, clusterIPs))
    }

    // The body of that loop
    method SyncCluster(svc: Service, headless: bool, clusterIds: seq<string>, i: nat, collected: seq<string>,
                       ghost round: Round)
      returns (err: Option<Error>, clusterIPs: seq<string>)
      requires Named(round) && InUse(round, svc) && NoDuplicates(clusterIds) && ToSet(clusterIds) == Clusters(svc.endpoints) && i < |clusterIds|
      requires SyncedUpTo(svc, clusterIds[..i], collected, round)
      modifies kube`services, kube`failures, kube`planned
      ensures Named(round) && OnlyDerivedOf(round, svc.name)
      ensures old(kube.services).Keys <= kube.services.Keys && KeptOrMade(old(kube.services), kube.services, headless)
      ensures err == None ==> SyncedUpTo(svc, clusterIds[..i + 1], clusterIPs, round)
      ensures Counts(err.Some?)
    {
      ghost var before := kube.services;
      err, clusterIPs := None, collected;
      var r := SyncDerivedService(svc.name, headless, clusterIds[i], svc.endpoints);
      if round.live.Some? { ClusterSynced(digest, namespaceName, round.live.value, before, kube.services, svc, clusterIds, i, collected); }
      if r.Err? {
        err := Some(r.error);
      } else {
        clusterIPs := clusterIPs + [r.value.clusterIP];
        // update EndpointSlices of this derived Service
        var own := EndpointsOfCluster(svc.endpoints, clusterIds[i]);
        err := kube.UpdateEndpointSlices(NameOf(svc.name, clusterIds[i]), clusterIds[i], own);
      }
      DoneWith(clusterIds, i);
    }

    // Of the derived services only those in rest may still lack endpoints.
    ghost predicate CleanBut(svc: Service, rest: set<string>)
      reads kube
    {
      && (forall d :: d in rest ==> DerivedFrom(kube.services, d, svc.name))
      && (forall d :: DerivedFrom(kube.services, d, svc.name) ==> d in rest || kube.services[d].labels.value.1 in Clusters(svc.endpoints))
    }

    // remove any existing derived services that do not have any endpoints in cloud map
    method RemoveStale(svc: Service, ghost clusterIds: seq<string>, ghost clusterIPs: seq<string>, ghost round: Round)
      returns (err: Option<Error>)
      requires Named(round) && ToSet(clusterIds) == Clusters(svc.endpoints) && SyncedUpTo(svc, clusterIds, clusterIPs, round)
      modifies kube`services, kube`failures, kube`swept
      ensures Named(round) && OnlyDerivedOf(round, svc.name) && SyncedUpTo(svc, clusterIds, clusterIPs, round)
      ensures OnlyRemoves(old(kube.services), kube.services) && Swept()
      ensures err == None ==> CleanBut(svc, {})
      ensures Counts(err.Some?)
    {
      var existing := kube.ListDerived(svc.name);
      if existing.Err? {
        err := Some(existing.error);
      } else {
        err := RemoveEach(svc, existing.value, clusterIds, clusterIPs, round);
      }
    }

    // The loop over the existing derived services
    method RemoveEach(svc: Service, existing: set<string>, ghost clusterIds: seq<string>, ghost clusterIPs: seq<string>,
                      ghost round: Round)
      returns (err: Option<Error>)
      requires Named(round) && ToSet(clusterIds) == Clusters(svc.endpoints) && SyncedUpTo(svc, clusterIds, clusterIPs, round)
      requires CleanBut(svc, existing)
      modifies kube`services, kube`failures, kube`swept
      ensures Named(round) && OnlyDerivedOf(round, svc.name) && SyncedUpTo(svc, clusterIds, clusterIPs, round)
      ensures OnlyRemoves(old(kube.services), kube.services) && Swept()
      ensures err == None ==> CleanBut(svc, {})
      ensures Counts(err.Some?)
    {
      err := None;
      var rest := existing;
      while rest != {} && err == None
        invariant Named(round) && OnlyDerivedOf(round, svc.name) && SyncedUpTo(svc, clusterIds, clusterIPs, round)
        invariant OnlyRemoves(old(kube.services), kube.services) && Swept()
        invariant Counts(err.Some?)
        invariant err == None ==> CleanBut(svc, rest)
        decreases rest
      {
        var d :| d in rest;
        ghost var before := kube.services;
        err := RemoveIfStale(svc, d, rest, clusterIds, clusterIPs, round);
        if round.live.Some? { OnlyDerivedOn(old(kube.services), before, kube.services, svc.name); }
        rest := rest - {d};
      }
    }

    // The body of that loop
    method RemoveIfStale(svc: Service, d: string, ghost rest: set<string>, ghost clusterIds: seq<string>, ghost clusterIPs: seq<string>,
                         ghost round: Round)
      returns (err: Option<Error>)
      requires Named(round) && ToSet(clusterIds) == Clusters(svc.endpoints) && SyncedUpTo(svc, clusterIds, clusterIPs, round)
      requires d in rest && CleanBut(svc, rest)
      modifies kube`services, kube`failures, kube`swept
      ensures Named(round) && OnlyDerivedOf(round, svc.name) && SyncedUpTo(svc, clusterIds, clusterIPs, round)
      ensures OnlyRemoves(old(kube.services), kube.services) && Swept()
      ensures err == None ==> CleanBut(svc, rest - {d})
      ensures Counts(err.Some?)
    {
      err := None;
      if kube.services[d].labels.value.1 !in Clusters(svc.endpoints) {
        if round.live.Some? { StaleRemoved(digest, namespaceName, round.live.value, kube.services, d, svc, clusterIds, clusterIPs); }
        err := DeleteDerivedServiceAndEndpointSlices(d);
      }
    }

    method DeleteDerivedServiceAndEndpointSlices(d: string) returns (err: Option<Error>)
      modifies kube`services, kube`failures, kube`swept
      ensures kube.services == if err == None then old(kube.services) - {d} else old(kube.services)
      ensures err == None ==> kube.swept[d] > old(kube.swept)[d]
      ensures Counts(err.Some?)
    {
      // delete EndpointSlices
      err := kube.DeleteEndpointSlices(d);
      if err == None {
        // delete Service
        err := kube.DeleteService(d);
      }
    }

    // The import has the service's ports; its derived services correspond to its clusters and its IPs are theirs.
    ghost predicate Synced(svc: Service, round: Round)
      reads this, kube
    {
      SyncedIn(kube.imports, kube.services, kube.planned, svc, round)
    }

    ghost predicate SyncedIn(imports: Imports, services: Services, planned: multiset<Plan>, svc: Service, round: Round) {
      && PlannedIn(planned, svc, Clusters(svc.endpoints), round)
      && ImportSynced(imports, svc)
      && (round.live.Some? ==> DerivedSynced(digest, namespaceName, imports, services, svc))
    }

    method ReconcileService(svc: Service, ghost round: Round)
      returns (err: Option<Error>, ghost clusterIds: seq<string>)
      requires svc.endpoints != [] && Named(round) && InUse(round, svc)
      modifies kube`imports, kube`services, kube`failures, kube`planned, kube`swept
      ensures Named(round) && OnlyDerivedOf(round, svc.name)
      ensures OnlyImport(old(kube.imports), kube.imports, svc.name)
      ensures Announced(old(kube.imports), kube.imports, svc, clusterIds)
      ensures NoDuplicates(clusterIds) && ToSet(clusterIds) == Clusters(svc.endpoints)
      ensures Swept()
      ensures svc.name in kube.imports ==> KeptOrMade(old(kube.services), kube.services, kube.imports[svc.name].type_ == "Headless")
      ensures err == None ==> Synced(svc, round)
      ensures Counts(err.Some?)
    {
      var importedSvcPorts := ExtractServicePorts(svc.endpoints);
      ListedPortsMatch(importedSvcPorts, svc.endpoints);
      var clusterIdToEndpointsMap := GroupByCluster(svc.endpoints);
      var listed := ListClusters(clusterIdToEndpointsMap.Keys);
      clusterIds := listed;
      var svcImport := GetOrCreateImport(svc, importedSvcPorts, listed);
      if svcImport.Err? {
        err := Some(svcImport.error);
      } else {
        err := SyncImport(svc, svcImport.value, importedSvcPorts, listed, round);
      }
    }

    // ReconcileService, once there is an import
    method SyncImport(svc: Service, svcImport: ServiceImport, importedSvcPorts: seq<Port>, clusterIds: seq<string>,
                      ghost round: Round)
      returns (err: Option<Error>)
      requires Named(round) && InUse(round, svc) && NoDuplicates(clusterIds) && ToSet(clusterIds) == Clusters(svc.endpoints)
      requires svc.name in kube.imports && kube.imports[svc.name] == svcImport
      requires HasServicePorts(importedSvcPorts, svc.endpoints)
      modifies kube`imports, kube`services, kube`failures, kube`planned, kube`swept
      ensures Named(round) && OnlyDerivedOf(round, svc.name)
      ensures OnlyImport(old(kube.imports), kube.imports, svc.name)
      ensures kube.imports[svc.name].type_ == svcImport.type_ && kube.imports[svc.name].clusters == svcImport.clusters
      ensures KeptOrMade(old(kube.services), kube.services, svcImport.type_ == "Headless") && Swept()
      ensures err == None ==> Synced(svc, round)
      ensures Counts(err.Some?)
    {
      var clusterIPs;
      err, clusterIPs := SyncDerived(svc, svcImport.type_ == "Headless", clusterIds, round);
      if err == None {
        // update service import to match derived service clusterIPs and imported ports if necessary
        err := UpdateServiceImport(svc.name, svcImport, clusterIPs, importedSvcPorts);
        assert err == None && round.live.Some? ==>
                 HasIPs(digest, namespaceName, kube.services, kube.imports[svc.name].ips, svc, clusterIds, clusterIPs);
      }
    }

    // The middle of ReconcileService
    method SyncDerived(svc: Service, headless: bool, clusterIds: seq<string>, ghost round: Round)
      returns (err: Option<Error>, clusterIPs: seq<string>)
      requires Named(round) && InUse(round, svc) && NoDuplicates(clusterIds) && ToSet(clusterIds) == Clusters(svc.endpoints)
      modifies kube`services, kube`failures, kube`planned, kube`swept
      ensures Named(round) && OnlyDerivedOf(round, svc.name)
      ensures err == None ==> SyncedUpTo(svc, clusterIds, clusterIPs, round)
      ensures err == None && round.live.Some? ==> DerivedMatch(digest, namespaceName, kube.services, svc.name, svc.endpoints)
      ensures KeptOrMade(old(kube.services), kube.services, headless) && Swept()
      ensures Counts(err.Some?)
    {
      err, clusterIPs := SyncClusters(svc, headless, clusterIds, round);
      if err == None {
        ghost var before := kube.services;
        err := RemoveStale(svc, clusterIds, clusterIPs, round);
        KeptOrMadeOn(old(kube.services), before, kube.services, headless);
        if round.live.Some? { OnlyDerivedOn(old(kube.services), before, kube.services, svc.name); }
      }
    }

    // services and listErr are what ListServices answered: the services of the namespace, read from the registry;
    // importsErr is what listing the imports answered. Once both lists are there, every failed call leaves at most one
    // service out of sync or one unmatched import in place: the others are dealt with all the same.
    method ReconcileNamespace()
      returns (err: Option<Error>, ghost services: seq<Service>, ghost listErr: Option<Error>, ghost importsErr: Option<Error>)
      requires cloudMap.Coherent()
      modifies kube`imports, kube`services, kube`failures, kube`planned, kube`swept
      modifies cloudMap`known, cloudMap.api, cloudMap.cache`defaultCache, cloudMap.cache`endpointsCache
      ensures cloudMap.Coherent() && cloudMap.OnlyRead() && cloudMap.ReadNow(services, namespaceName, old(cloudMap.api.now))
      ensures listErr == None ==> cloudMap.ListsAll(namespaceName, NamesOf(services), old(cloudMap.api.now))
      ensures listErr.Some? ==> err == listErr && kube.imports == old(kube.imports) && kube.services == old(kube.services)
      ensures importsErr.Some? ==> err == importsErr && kube.imports == old(kube.imports) && kube.services == old(kube.services)
      ensures listErr == None && importsErr == None ==>
                Undone(services, RoundFor(old(kube.services), services, old(kube.planned))) <= kube.failures - old(kube.failures)
      ensures err == None ==>
                kube.imports.Keys == Wanted(services)
                && AllInSync(services, RoundFor(old(kube.services), services, old(kube.planned)))
      ensures forall name :: name in old(kube.imports) && name !in kube.imports ==> name !in Wanted(services)
      ensures err.Some? ==> kube.failures > old(kube.failures) || cloudMap.Complained()
    {
      var listed, answered := cloudMap.ListServices(namespaceName);
      services, listErr, importsErr := listed, answered, None;
      if answered.Some? {
        err := answered;
      } else {
        err, importsErr := ReconcileImports(listed);
      }
    }

    // The rest of ReconcileNamespace
    method ReconcileImports(services: seq<Service>) returns (err: Option<Error>, ghost importsErr: Option<Error>)
      requires DistinctNames(services)
      modifies kube`imports, kube`services, kube`failures, kube`planned, kube`swept
      ensures importsErr.Some? ==> err == importsErr && kube.imports == old(kube.imports) && kube.services == old(kube.services)
      ensures importsErr == None ==>
                Undone(services, RoundFor(old(kube.services), services, old(kube.planned))) <= kube.failures - old(kube.failures)
      ensures err == None ==>
                kube.imports.Keys == Wanted(services)
                && AllInSync(services, RoundFor(old(kube.services), services, old(kube.planned)))
      ensures forall name :: name in old(kube.imports) && name !in kube.imports ==> name !in Wanted(services)
      ensures Counts(err.Some?)
    {
      var serviceImports := kube.ListImports();
      importsErr := None;
      if serviceImports.Err? {
        err := Some(serviceImports.error);
        importsErr := err;
      } else {
        err := ReconcileListed(services, serviceImports.value.Keys, RoundFor(kube.services, services, kube.planned));
      }
    }

    // The rest of it, with both lists there
    method ReconcileListed(services: seq<Service>, existing: set<string>, ghost round: Round) returns (err: Option<Error>)
      requires DistinctNames(services) && existing == kube.imports.Keys && Named(round) && forall s :: s in services ==> InUse(round, s)
      modifies kube`imports, kube`services, kube`failures, kube`planned, kube`swept
      ensures Undone(services, round) <= kube.failures - old(kube.failures)
      ensures err == None ==> kube.imports.Keys == Wanted(services) && AllInSync(services, round)
      ensures forall name :: name in old(kube.imports) && name !in kube.imports ==> name !in Wanted(services)
      ensures Counts(err.Some?)
    {
      err := ReconcileAll(services, round);
      ghost var reconciled := kube.imports.Keys;
      err := DeleteUnmatched(existing - Wanted(services), services, err, round);
      LeftUnmatched(existing, reconciled, kube.imports.Keys, Wanted(services));
      if err == None { WantedThere(services, round); }
      assert forall name :: name in existing && name !in kube.imports ==> name in existing - kube.imports.Keys;
    }

    lemma WantedThere(services: seq<Service>, round: Round)
      requires AllInSync(services, round)
      ensures Wanted(services) <= kube.imports.Keys
    {
    }

    // The names of the listed services that have endpoints and are not in sync
    ghost function Lagging(services: seq<Service>, round: Round): set<string>
      reads this, kube
    {
      LaggingIn(kube.imports, kube.services, kube.planned, services, round)
    }

    ghost function LaggingIn(imports: Imports, kubeServices: Services, planned: multiset<Plan>, services: seq<Service>, round: Round): set<string> {
      set s | s in services && s.endpoints != [] && !SyncedIn(imports, kubeServices, planned, s, round) :: s.name
    }

    // How many services are not in sync, and how many imports are there without a service
    ghost function Undone(services: seq<Service>, round: Round): nat
      reads this, kube
    {
      |Lagging(services, round)| + |kube.imports.Keys - Wanted(services)|
    }

    ghost predicate AllInSync(services: seq<Service>, round: Round)
      reads this, kube
    {
      forall s :: s in services && s.endpoints != [] ==> Synced(s, round)
    }

    // The loop over the services of the namespace
    method ReconcileAll(services: seq<Service>, ghost round: Round) returns (err: Option<Error>)
      requires Named(round) && DistinctNames(services) && forall s :: s in services ==> InUse(round, s)
      modifies kube`imports, kube`services, kube`failures, kube`planned, kube`swept
      ensures old(kube.imports).Keys <= kube.imports.Keys <= old(kube.imports).Keys + Wanted(services)
      ensures err == None ==> AllInSync(services, round)
      ensures |Lagging(services, round)| <= kube.failures - old(kube.failures)
      ensures Counts(err.Some?)
    {
      err := None;
      for i := 0 to |services|
        invariant Named(round)
        invariant |Lagging(services[..i], round)| <= kube.failures - old(kube.failures)
        invariant old(kube.imports).Keys <= kube.imports.Keys <= old(kube.imports).Keys + Wanted(services[..i])
        invariant Counts(err.Some?)
        invariant err == None ==> AllInSync(services[..i], round)
      {
        assert services[..i + 1] == services[..i] + [services[i]];
        // skip empty services
        if services[i].endpoints != [] {
          err := ReconcileOne(services, i, err, round);
        } else {
          assert Lagging(services[..i + 1], round) == Lagging(services[..i], round);
        }
      }
      assert services[..|services|] == services;
    }

    // The body of that loop
    method ReconcileOne(services: seq<Service>, i: nat, before: Option<Error>, ghost round: Round)
      returns (err: Option<Error>)
      requires Named(round) && DistinctNames(services) && i < |services| && services[i].endpoints != [] && InUse(round, services[i])
      requires before == None ==> AllInSync(services[..i], round)
      modifies kube`imports, kube`services, kube`failures, kube`planned, kube`swept
      ensures Named(round)
      ensures old(kube.imports).Keys <= kube.imports.Keys <= old(kube.imports).Keys + {services[i].name}
      ensures err == None ==> AllInSync(services[..i + 1], round)
      ensures |Lagging(services[..i + 1], round)| - kube.failures <= old(|Lagging(services[..i], round)| - kube.failures)
      ensures Counts(err.Some? && before == None)
    {
      ghost var lagging := Lagging(services[..i], round);
      NoneLags(services[..i], round);
      err := ReconcileAmong(services, i, round);
      OneMoreLags(lagging, Lagging(services[..i + 1], round), services[i].name, err == None);
      NoneLags(services[..i + 1], round);
      err := Wrap(before, err);
    }

    // One service is reconciled; those before it that were in sync stay so.
    method ReconcileAmong(services: seq<Service>, i: nat, ghost round: Round) returns (err: Option<Error>)
      requires Named(round) && DistinctNames(services) && i < |services| && services[i].endpoints != [] && InUse(round, services[i])
      modifies kube`imports, kube`services, kube`failures, kube`planned, kube`swept
      ensures Named(round)
      ensures old(kube.imports).Keys <= kube.imports.Keys <= old(kube.imports).Keys + {services[i].name}
      ensures Lagging(services[..i + 1], round) <= old(Lagging(services[..i], round)) + {services[i].name}
      ensures err == None ==> Lagging(services[..i + 1], round) <= old(Lagging(services[..i], round))
      ensures Counts(err.Some?)
    {
      ghost var imports, kubeServices, planned := kube.imports, kube.services, kube.planned;
      ghost var clusterIds;
      err, clusterIds := ReconcileService(services[i], round);
      LaggingNext(services, i, Objects(imports, kubeServices, planned), Objects(kube.imports, kube.services, kube.planned), round);
    }

    // Service i was reconciled; what was there before and after
    lemma LaggingNext(services: seq<Service>, i: nat, a: Objects, b: Objects, round: Round)
      requires DistinctNames(services) && i < |services| && OnlyImport(a.imports, b.imports, services[i].name) && a.planned <= b.planned
      requires round.live.Some? ==> OnlyDerived(a.services, b.services, services[i].name)
      ensures LaggingAt(b, services[..i + 1], round) <= LaggingAt(a, services[..i], round) + {services[i].name}
      ensures SyncedAt(b, services[i], round) ==> LaggingAt(b, services[..i + 1], round) <= LaggingAt(a, services[..i], round)
    {
      forall s | s in services[..i + 1] && s.endpoints != [] && !SyncedAt(b, s, round) && s != services[i]
        ensures s.name in LaggingAt(a, services[..i], round)
      {
        assert services[..i + 1] == services[..i] + [services[i]];
        if SyncedAt(a, s, round) { StillSynced(services, i, s, a, b, round); }
      }
    }

    ghost predicate SyncedAt(o: Objects, svc: Service, round: Round) {
      SyncedIn(o.imports, o.services, o.planned, svc, round)
    }

    ghost function LaggingAt(o: Objects, services: seq<Service>, round: Round): set<string> {
      LaggingIn(o.imports, o.services, o.planned, services, round)
    }

    // Another service was reconciled.
    lemma StillSynced(services: seq<Service>, i: nat, s: Service, a: Objects, b: Objects, round: Round)
      requires DistinctNames(services) && i < |services| && s in services[..i] && SyncedAt(a, s, round) && a.planned <= b.planned
      requires OnlyImport(a.imports, b.imports, services[i].name)
      requires round.live.Some? ==> OnlyDerived(a.services, b.services, services[i].name)
      ensures SyncedAt(b, s, round)
    {
      EarlierName(services, i, s);
      ImportKept(a.imports, b.imports, services[i].name, s);
      if round.live.Some? { DerivedKept(digest, namespaceName, a.imports, b.imports, a.services, b.services, services[i].name, s); }
    }

    // An import that no service has was deleted.
    lemma LaggingWithout(services: seq<Service>, a: Objects, name: string, round: Round)
      requires name !in Wanted(services)
      ensures LaggingAt(a.(imports := a.imports - {name}), services, round) <= LaggingAt(a, services, round)
    {
      var b := a.(imports := a.imports - {name});
      forall s | s in services && s.endpoints != [] && SyncedAt(a, s, round) ensures SyncedAt(b, s, round) {
        assert s.name in Wanted(services);
        ImportKept(a.imports, b.imports, name, s);
        if round.live.Some? { ImportElsewhereKept(digest, namespaceName, a.imports, b.imports, a.services, name, s); }
      }
    }

    // delete remaining imports that have not been matched
    method DeleteUnmatched(unmatched: set<string>, ghost services: seq<Service>, before: Option<Error>, ghost round: Round)
      returns (err: Option<Error>)
      requires unmatched !! Wanted(services) && unmatched <= kube.imports.Keys
      requires before == None ==> AllInSync(services, round)
      modifies kube`imports, kube`failures
      ensures old(kube.imports).Keys - unmatched <= kube.imports.Keys <= old(kube.imports).Keys
      ensures err == None ==> before == None && kube.imports.Keys == old(kube.imports).Keys - unmatched && AllInSync(services, round)
      ensures |Lagging(services, round)| <= old(|Lagging(services, round)|)
      ensures |unmatched * kube.imports.Keys| <= kube.failures - old(kube.failures)
      ensures Counts(err.Some? && before == None)
    {
      NoneLags(services, round);
      ghost var lagging := Lagging(services, round);
      err := DeleteEach(unmatched, services, before, round);
      SubsetSize(Lagging(services, round), lagging);
      NoneLags(services, round);
      AllDone(old(kube.imports).Keys, kube.imports.Keys, unmatched);
    }

    method DeleteEach(unmatched: set<string>, ghost services: seq<Service>, before: Option<Error>, ghost round: Round)
      returns (err: Option<Error>)
      requires unmatched !! Wanted(services) && unmatched <= kube.imports.Keys
      modifies kube`imports, kube`failures
      ensures Deleting(old(kube.imports).Keys, unmatched, {}, old(kube.failures))
      ensures err == None ==> before == None && kube.imports.Keys == old(kube.imports).Keys - unmatched
      ensures Lagging(services, round) <= old(Lagging(services, round))
      ensures Counts(err.Some? && before == None)
    {
      err := before;
      var rest := unmatched;
      ghost var imports := kube.imports.Keys;
      NoneDone(imports, unmatched);
      while rest != {}
        invariant Lagging(services, round) <= old(Lagging(services, round)) && Deleting(imports, unmatched, rest, old(kube.failures))
        invariant err == None ==> before == None && kube.imports.Keys == imports - (unmatched - rest)
        invariant Counts(err.Some? && before == None)
        decreases rest
      {
        var name :| name in rest;
        var deleteErr := DeleteOne(name, imports, unmatched, rest, old(kube.failures), services, round);
        err := Wrap(err, deleteErr);
        DoneWithOne(imports, unmatched, rest, name);
        rest := rest - {name};
      }
    }

    // Of the unmatched imports that were dealt with, there are no more left than calls that failed.
    ghost predicate Deleting(imports: set<string>, unmatched: set<string>, rest: set<string>, failures: nat)
      reads kube
    {
      && rest <= unmatched && imports - (unmatched - rest) <= kube.imports.Keys <= imports
      && |(unmatched - rest) * kube.imports.Keys| <= kube.failures - failures
    }

    // The body of that loop
    method DeleteOne(name: string, ghost imports: set<string>, ghost unmatched: set<string>, ghost rest: set<string>, ghost failures: nat,
                     ghost services: seq<Service>, ghost round: Round)
      returns (err: Option<Error>)
      requires Deleting(imports, unmatched, rest, failures) && name in rest && unmatched <= imports && unmatched !! Wanted(services)
      modifies kube`imports, kube`failures
      ensures Deleting(imports, unmatched, rest - {name}, failures)
      ensures Lagging(services, round) <= old(Lagging(services, round))
      ensures kube.imports.Keys == if err == None then old(kube.imports).Keys - {name} else old(kube.imports).Keys
      ensures Counts(err.Some?)
    {
      ghost var before := kube.imports;
      err := kube.DeleteImport(name);
      LaggingWithout(services, Objects(before, kube.services, kube.planned), name, round);
      OneMoreLeft(before.Keys, kube.imports.Keys, unmatched - rest, unmatched - (rest - {name}), name);
    }

    lemma NoneLags(services: seq<Service>, round: Round)
      ensures Lagging(services, round) == {} <==> AllInSync(services, round)
    {
      forall s | s in services && s.endpoints != [] && !Synced(s, round) ensures Lagging(services, round) != {} {
        assert s.name in Lagging(services, round);
      }
    }
  }

  lemma NoneDone(imports: set<string>, unmatched: set<string>)
    ensures imports - (unmatched - unmatched) == imports && |(unmatched - unmatched) * imports| == 0
  {
    assert (unmatched - unmatched) * imports == {};
  }

  lemma AllDone(before: set<string>, after: set<string>, unmatched: set<string>)
    ensures before - (unmatched - {}) == before - unmatched && (unmatched - {}) * after == unmatched * after
  {
  }

  lemma DoneWithOne(imports: set<string>, unmatched: set<string>, rest: set<string>, name: string)
    requires name in rest && rest <= unmatched
    ensures imports - (unmatched - (rest - {name})) == imports - (unmatched - rest) - {name}
  {
  }

  // One more import was to be deleted.
  lemma OneMoreLeft(imports: set<string>, imports': set<string>, done: set<string>, done': set<string>, name: string)
    requires done' == done + {name} && (imports' == imports || imports' == imports - {name})
    ensures |done' * imports'| <= |done * imports| + if imports' == imports then 1 else 0
  {
    if imports' == imports {
      SubsetSize(done' * imports', done * imports + {name});
    } else {
      SubsetSize(done' * imports', done * imports);
    }
  }

  lemma LeftUnmatched(before: set<string>, reconciled: set<string>, after: set<string>, wanted: set<string>)
    requires before <= reconciled <= before + wanted && after <= reconciled
    ensures after - wanted == (before - wanted) * after
    ensures reconciled - (before - wanted) <= after ==> before - after !! wanted
    ensures after == reconciled - (before - wanted) && wanted <= after ==> after == wanted
  {
  }

  // The pairs in use, if their derived names are apart and the existing derived services are where they belong.
  ghost function NamesInUse(digest: string -> string, ns: string, services: Services, svcs: seq<Service>): Option<set<(string, string)>> {
    if WellNamed(digest, ns, Pairs(services, svcs), services) then Some(Pairs(services, svcs)) else None
  }

  ghost function Pairs(services: Services, svcs: seq<Service>): set<(string, string)> {
    (set d | d in services && services[d].labels.Some? :: services[d].labels.value)
    + (set s, c | s in svcs && c in Clusters(s.endpoints) :: (s.name, c))
  }

  // The import is there with the service's ports.
  ghost predicate ImportSynced(imports: Imports, svc: Service) {
    svc.name in imports && HasServicePorts(imports[svc.name].ports, svc.endpoints)
  }

  ghost predicate DerivedSynced(digest: string -> string, ns: string, imports: Imports, services: Services, svc: Service) {
    && svc.name in imports
    && DerivedMatch(digest, ns, services, svc.name, svc.endpoints)
    && exists clusterIds, clusterIPs :: HasIPs(digest, ns, services, imports[svc.name].ips, svc, clusterIds, clusterIPs)
  }

  // The IPs are those of the derived services, one for each cluster, in any order.
  ghost predicate HasIPs(digest: string -> string, ns: string, services: Services, ips: seq<string>, svc: Service,
                         clusterIds: seq<string>, clusterIPs: seq<string>) {
    && NoDuplicates(clusterIds) && ToSet(clusterIds) == Clusters(svc.endpoints)
    && IPsIn(digest, ns, services, svc.name, clusterIds, clusterIPs)
    && multiset(ips) == multiset(clusterIPs)
  }

  ghost predicate DistinctNames(services: seq<Service>) {
    forall i, j :: 0 <= i < j < |services| ==> services[i].name != services[j].name
  }

  // The services with endpoints.
  function Wanted(services: seq<Service>): set<string> {
    set s | s in services && s.endpoints != [] :: s.name
  }

  // One more service was reconciled, and is in sync unless a call failed.
  lemma OneMoreLags(a: set<string>, b: set<string>, name: string, ok: bool)
    requires b <= a + {name} && (ok ==> b <= a)
    ensures |b| <= |a| + if ok then 0 else 1
  {
    if ok { SubsetSize(b, a); } else { SubsetSize(b, a + {name}); }
  }

  lemma {:induction false} SubsetSize(a: set<string>, b: set<string>)
    requires a <= b
    ensures |a| <= |b|
  {
    assert b == a + (b - a);
  }

  lemma EarlierName(services: seq<Service>, i: nat, s: Service)
    requires DistinctNames(services) && i < |services| && s in services[..i]
    ensures s.name != services[i].name
  {
    var j :| 0 <= j < i && services[j] == s;
  }

  // What happens to one import leaves the others in sync.
  lemma ImportKept(a: Imports, b: Imports, name: string, svc: Service)
    requires svc.name != name && ImportSynced(a, svc) && (svc.name in a ==> svc.name in b && b[svc.name] == a[svc.name])
    ensures ImportSynced(b, svc)
  {
  }

  lemma ImportElsewhereKept(digest: string -> string, ns: string, a: Imports, b: Imports, services: Services, name: string, svc: Service)
    requires DerivedSynced(digest, ns, a, services, svc) && svc.name in b && b[svc.name] == a[svc.name]
    ensures DerivedSynced(digest, ns, b, services, svc)
  {
  }

  lemma DerivedKept(digest: string -> string, ns: string, a: Imports, b: Imports, svcs: Services, svcs': Services, name: string, svc: Service)
    requires svc.name != name && OnlyDerived(svcs, svcs', name) && DerivedSynced(digest, ns, a, svcs, svc)
    requires svc.name in b && b[svc.name] == a[svc.name]
    ensures DerivedSynced(digest, ns, b, svcs', svc)
  {
    MatchKept(digest, ns, svcs, svcs', name, svc.name, svc.endpoints);
    var clusterIds, clusterIPs :| HasIPs(digest, ns, svcs, a[svc.name].ips, svc, clusterIds, clusterIPs);
    forall k | 0 <= k < |clusterIds| ensures IPIs(svcs', DerivedName(digest, ns, svc.name, clusterIds[k]), clusterIPs[k]) {
      assert clusterIds[k] in ToSet(clusterIds);
      assert DerivedFor(digest, ns, svcs, svc.name, svc.endpoints, clusterIds[k]);
      assert IPIs(svcs, DerivedName(digest, ns, svc.name, clusterIds[k]), clusterIPs[k]);
    }
    assert HasIPs(digest, ns, svcs', b[svc.name].ips, svc, clusterIds, clusterIPs);
  }

  // Each of these clusters has its derived service, with this IP.
  ghost predicate HasDerived(digest: string -> string, ns: string, services: Services, svc: Service,
                             done: seq<string>, clusterIPs: seq<string>) {
    && (forall c :: c in ToSet(done) ==> DerivedFor(digest, ns, services, svc.name, svc.endpoints, c))
    && IPsIn(digest, ns, services, svc.name, done, clusterIPs)
  }

  ghost predicate LabelledAs(services: Services, d: string, p: (string, string)) {
    d in services ==> services[d].labels == Some(p)
  }

  // The next cluster's derived service was brought up to date; those before it are as they were.
  lemma ClusterSynced(digest: string -> string, ns: string, live: set<(string, string)>, a: Services, b: Services,
                      svc: Service, clusterIds: seq<string>, i: nat, ips: seq<string>)
    requires NoDuplicates(clusterIds) && ToSet(clusterIds) == Clusters(svc.endpoints) && i < |clusterIds|
    requires WellNamed(digest, ns, live, a) && forall c :: c in Clusters(svc.endpoints) ==> (svc.name, c) in live
    requires HasDerived(digest, ns, a, svc, clusterIds[..i], ips)
    requires var d, p := DerivedName(digest, ns, svc.name, clusterIds[i]), (svc.name, clusterIds[i]);
             LabelledAs(a, d, p) ==> OnlyService(a, b, d, p)
    ensures WellNamed(digest, ns, live, b) && OnlyDerived(a, b, svc.name)
    ensures var d := DerivedName(digest, ns, svc.name, clusterIds[i]);
            d in b && HasServicePorts(b[d].ports, OfCluster(svc.endpoints, clusterIds[i])) ==>
            HasDerived(digest, ns, b, svc, clusterIds[..i + 1], ips + [b[d].clusterIP])
  {
    var c := clusterIds[i];
    var d := DerivedName(digest, ns, svc.name, c);
    DoneWith(clusterIds, i);
    assert (svc.name, c) in live;
    NamedAfter(digest, ns, live, a, b, (svc.name, c));
    OtherClustersKept(digest, ns, live, a, b, svc.name, svc.endpoints, c, ToSet(clusterIds[..i]));
    if d in b {
      IPsMore(digest, ns, live, a, b, svc, clusterIds, i, ips);
    }
  }

  // At most this import changed, and it is not gone.
  ghost predicate OnlyImport(a: Imports, b: Imports, name: string) {
    a.Keys <= b.Keys <= a.Keys + {name} && forall n :: n != name && n in a ==> b[n] == a[n]
  }

  // The IPs of the import's derived services, cluster by cluster.
  ghost predicate IPsIn(digest: string -> string, ns: string, services: Services, name: string,
                        clusterIds: seq<string>, clusterIPs: seq<string>) {
    && |clusterIPs| == |clusterIds|
    && forall k :: 0 <= k < |clusterIds| ==> IPIs(services, DerivedName(digest, ns, name, clusterIds[k]), clusterIPs[k])
  }

  ghost predicate IPIs(services: Services, d: string, ip: string) {
    d in services && services[d].clusterIP == ip
  }

  lemma IPsMore(digest: string -> string, ns: string, live: set<(string, string)>, a: Services, b: Services,
                svc: Service, clusterIds: seq<string>, i: nat, ips: seq<string>)
    requires WellNamed(digest, ns, live, a) && NoDuplicates(clusterIds) && ToSet(clusterIds) == Clusters(svc.endpoints) && i < |clusterIds|
    requires forall c :: c in Clusters(svc.endpoints) ==> (svc.name, c) in live
    requires OnlyService(a, b, DerivedName(digest, ns, svc.name, clusterIds[i]), (svc.name, clusterIds[i]))
    requires DerivedName(digest, ns, svc.name, clusterIds[i]) in b && IPsIn(digest, ns, a, svc.name, clusterIds[..i], ips)
    ensures IPsIn(digest, ns, b, svc.name, clusterIds[..i + 1], ips + [b[DerivedName(digest, ns, svc.name, clusterIds[i])].clusterIP])
  {
    forall k | 0 <= k < i ensures IPIs(b, DerivedName(digest, ns, svc.name, clusterIds[k]), ips[k]) {
      assert clusterIds[k] in ToSet(clusterIds) && clusterIds[i] in ToSet(clusterIds);
      assert (svc.name, clusterIds[k]) in live && (svc.name, clusterIds[i]) in live;
      assert IPIs(a, DerivedName(digest, ns, svc.name, clusterIds[..i][k]), ips[k]);
    }
  }

  lemma DoneWith(cs: seq<string>, i: nat)
    requires NoDuplicates(cs) && i < |cs|
    ensures cs[i] in ToSet(cs) && cs[i] !in ToSet(cs[..i]) && ToSet(cs[..i]) <= ToSet(cs)
    ensures ToSet(cs[..i + 1]) == ToSet(cs[..i]) + {cs[i]}
  {
    assert cs[..i + 1] == cs[..i] + [cs[i]];
  }

  lemma GroupNext(es: seq<Endpoint>, i: nat)
    requires i < |es|
    ensures Clusters(es[..i + 1]) == Clusters(es[..i]) + {es[i].clusterId}
    ensures forall c :: OfCluster(es[..i + 1], c) == OfCluster(es[..i], c) + if es[i].clusterId == c then [es[i]] else []
    ensures es[i].clusterId !in Clusters(es[..i]) ==> OfCluster(es[..i], es[i].clusterId) == []
  {
    assert es[..i + 1] == es[..i] + [es[i]] && es[..i + 1][..i] == es[..i];
    if es[i].clusterId !in Clusters(es[..i]) { NoneOfCluster(es[..i], es[i].clusterId); }
  }

  lemma {:induction false} NoneOfCluster(es: seq<Endpoint>, c: string)
    requires c !in Clusters(es)
    ensures OfCluster(es, c) == []
  {
    if es != [] {
      assert es == es[..|es| - 1] + [es[|es| - 1]];
      NoneOfCluster(es[..|es| - 1], c);
    }
  }
}
