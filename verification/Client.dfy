// pkg/cloudmap/client.go: the service discovery client, over its cache and the Cloud Map API.
module Client {
  import opened Common
  import opened Model
  import opened Codec
  import opened Diff
  import opened Registry
  import opened Poller
  import opened Cache
  import opened CloudMap

  datatype Service = Service(namespace_: string, name: string, endpoints: seq<Endpoint>)

  // ---- What the cached endpoint lists say ----

  // The list is what was registered at moment m, and was cached within `latency` of it.
  ghost predicate TakenAt(m: Moment, value: seq<Endpoint>, cachedAt: int, ns: string, svc: string, setId: string, latency: nat) {
    Lists(value, Registry.Listed(InstancesAt(m.world, ns, svc), setId)) && m.at <= cachedAt <= m.at + latency
  }

  ghost predicate EntryOk(e: Entry<seq<Endpoint>>, ns: string, svc: string, w: World, moments: seq<Moment>,
                          setId: string, clusterId: string, latency: nat, ttl: nat) {
    && OwnOf(ById(e.value), clusterId) == OwnAt(w, ns, svc, setId, clusterId)
    && exists m :: m in moments && TakenAt(m, e.value, e.expires - ttl, ns, svc, setId, latency)
  }

  ghost predicate EntriesOk(c: map<string, Entry<seq<Endpoint>>>, w: World, moments: seq<Moment>,
                            setId: string, clusterId: string, latency: nat, ttl: nat) {
    forall ns, svc :: ':' !in svc && EndptsKey(ns, svc) in c ==>
      EntryOk(c[EndptsKey(ns, svc)], ns, svc, w, moments, setId, clusterId, latency, ttl)
  }

  lemma EntryStays(e: Entry<seq<Endpoint>>, ns: string, svc: string, w: World, w': World,
                   moments: seq<Moment>, moments': seq<Moment>, setId: string, clusterId: string, latency: nat, ttl: nat)
    requires EntryOk(e, ns, svc, w, moments, setId, clusterId, latency, ttl) && moments <= moments'
    requires OwnAt(w', ns, svc, setId, clusterId) == OwnAt(w, ns, svc, setId, clusterId)
    ensures EntryOk(e, ns, svc, w', moments', setId, clusterId, latency, ttl)
  {
    var m :| m in moments && TakenAt(m, e.value, e.expires - ttl, ns, svc, setId, latency);
    assert m in moments';
  }

  lemma EntriesStay(c: map<string, Entry<seq<Endpoint>>>, c': map<string, Entry<seq<Endpoint>>>, w: World, w': World,
                    moments: seq<Moment>, moments': seq<Moment>, setId: string, clusterId: string, latency: nat, ttl: nat)
    requires EntriesOk(c, w, moments, setId, clusterId, latency, ttl)
    requires Within(c', c) && Grows(w, w', setId, clusterId) && moments <= moments'
    ensures EntriesOk(c', w', moments', setId, clusterId, latency, ttl)
  {
    forall ns, svc | ':' !in svc && EndptsKey(ns, svc) in c'
      ensures EntryOk(c'[EndptsKey(ns, svc)], ns, svc, w', moments', setId, clusterId, latency, ttl)
    {
      EntryStays(c[EndptsKey(ns, svc)], ns, svc, w, w', moments, moments', setId, clusterId, latency, ttl);
    }
  }

  // A change to one service's instances invalidates its own entry only.
  lemma EntriesBut(c: map<string, Entry<seq<Endpoint>>>, w: World, w': World, moments: seq<Moment>,
                   ns: string, svc: string, eff: Effect, setId: string, clusterId: string, latency: nat, ttl: nat)
    requires EntriesOk(c, w, moments, setId, clusterId, latency, ttl) && EndptsKey(ns, svc) !in c
    requires Does(w, w', ns, svc, eff, setId, clusterId)
    ensures EntriesOk(c, w', moments, setId, clusterId, latency, ttl)
  {
    forall n, s | ':' !in s && EndptsKey(n, s) in c
      ensures EntryOk(c[EndptsKey(n, s)], n, s, w', moments, setId, clusterId, latency, ttl)
    {
      assert EntryOk(c[EndptsKey(n, s)], n, s, w, moments, setId, clusterId, latency, ttl);
      assert (n, s) != (ns, svc);
    }
  }

  lemma NewEntryOk(value: seq<Endpoint>, m: Moment, moments: seq<Moment>, now: nat, w: World, ns: string, svc: string,
                   setId: string, clusterId: string, latency: nat, ttl: nat)
    requires Lists(value, Registry.Listed(InstancesAt(m.world, ns, svc), setId)) && m in moments && m.at <= now <= m.at + latency
    requires OwnAt(w, ns, svc, setId, clusterId) == OwnAt(m.world, ns, svc, setId, clusterId)
    ensures EntryOk(Entry(value, now + ttl), ns, svc, w, moments, setId, clusterId, latency, ttl)
  {
    assert ById(value) == Registry.Listed(InstancesAt(m.world, ns, svc), setId);
    assert TakenAt(m, value, now, ns, svc, setId, latency);
  }

  lemma EntriesWith(c: map<string, Entry<seq<Endpoint>>>, c': map<string, Entry<seq<Endpoint>>>, ns: string, svc: string,
                    w: World, moments: seq<Moment>, setId: string, clusterId: string, latency: nat, ttl: nat)
    requires EntriesOk(c, w, moments, setId, clusterId, latency, ttl) && ':' !in svc && EndptsKey(ns, svc) in c'
    requires EntryOk(c'[EndptsKey(ns, svc)], ns, svc, w, moments, setId, clusterId, latency, ttl)
    requires Within(c' - {EndptsKey(ns, svc)}, c)
    ensures EntriesOk(c', w, moments, setId, clusterId, latency, ttl)
  {
    forall n, s | ':' !in s && EndptsKey(n, s) in c'
      ensures EntryOk(c'[EndptsKey(n, s)], n, s, w, moments, setId, clusterId, latency, ttl)
    {
      EndptsKeysDistinct(n, s, ns, svc);
      if (n, s) != (ns, svc) {
        assert EndptsKey(n, s) in c' - {EndptsKey(ns, svc)};
      }
    }
  }

  // ---- What the cached names say ----

  // Every known service is in every cached list that could name it.
  ghost predicate NamesKnow(c: map<string, Entry<Names>>, known: set<(string, string)>) {
    forall p :: p in known ==>
      && (NS_KEY in c && c[NS_KEY].value.Namespaces? ==> p.0 in c[NS_KEY].value.names)
      && (SvcKey(p.0) in c && c[SvcKey(p.0)].value.ServiceIds? ==> p.1 in c[SvcKey(p.0)].value.names)
  }

  ghost predicate Exist(known: set<(string, string)>, w: World) {
    forall p :: p in known ==> Has(w, p.0, p.1)
  }

  ghost predicate NamedIn(c: map<string, Entry<Names>>, ns: string) {
    NS_KEY in c && c[NS_KEY].value.Namespaces? ==> ns in c[NS_KEY].value.names
  }

  // Whatever a cached list names exists, and a namespace whose services are cached is in the cached namespaces.
  ghost predicate NamesTrue(c: map<string, Entry<Names>>, w: World) {
    && (NS_KEY in c && c[NS_KEY].value.Namespaces? ==> c[NS_KEY].value.names <= w.Keys)
    && (forall ns :: SvcKey(ns) in c && c[SvcKey(ns)].value.ServiceIds? ==> ns in w && NamedIn(c, ns))
    && (forall ns, svc :: SvcKey(ns) in c && c[SvcKey(ns)].value.ServiceIds? && svc in c[SvcKey(ns)].value.names ==> Has(w, ns, svc))
  }

  ghost predicate ServiceNamedIn(c: map<string, Entry<Names>>, ns: string, svc: string) {
    NamedIn(c, ns) && (SvcKey(ns) in c && c[SvcKey(ns)].value.ServiceIds? ==> svc in c[SvcKey(ns)].value.names)
  }

  // A service with instances of this cluster is known.
  ghost predicate OwnKnown(known: set<(string, string)>, w: World, setId: string, clusterId: string) {
    forall ns, svc :: OwnAt(w, ns, svc, setId, clusterId) != map[] ==> (ns, svc) in known
  }

  // A service with a cached endpoint list is known.
  ghost predicate CachedKnown(c: map<string, Entry<seq<Endpoint>>>, known: set<(string, string)>) {
    forall ns, svc :: ':' !in svc && EndptsKey(ns, svc) in c ==> (ns, svc) in known
  }

  lemma CachedKnownWith(c: map<string, Entry<seq<Endpoint>>>, c': map<string, Entry<seq<Endpoint>>>, ns: string, svc: string,
                        known: set<(string, string)>)
    requires CachedKnown(c, known) && ':' !in svc && (ns, svc) in known && Within(c' - {EndptsKey(ns, svc)}, c)
    ensures CachedKnown(c', known)
  {
    forall n, s | ':' !in s && EndptsKey(n, s) in c' ensures (n, s) in known {
      EndptsKeysDistinct(n, s, ns, svc);
      if (n, s) != (ns, svc) {
        assert EndptsKey(n, s) in c' - {EndptsKey(ns, svc)};
      }
    }
  }

  // The namespaces, or the services of one, were these at moment m, and were cached within `latency` of it.
  ghost predicate NamespacesAt(m: Moment, names: set<string>, cachedAt: int, latency: nat) {
    m.world.Keys == names && m.at <= cachedAt <= m.at + latency
  }

  ghost predicate ServicesAt(m: Moment, ns: string, names: set<string>, cachedAt: int, latency: nat) {
    ns in m.world && m.world[ns].Keys == names && m.at <= cachedAt <= m.at + latency
  }

  ghost predicate NamespacesSeen(e: Entry<Names>, moments: seq<Moment>, latency: nat, ttl: nat) {
    e.value.Namespaces? ==> exists m :: m in moments && NamespacesAt(m, e.value.names, e.expires - ttl, latency)
  }

  ghost predicate ServicesSeen(e: Entry<Names>, ns: string, moments: seq<Moment>, latency: nat, ttl: nat) {
    e.value.ServiceIds? ==> exists m :: m in moments && ServicesAt(m, ns, e.value.names, e.expires - ttl, latency)
  }

  // Every cached list of names was true not long before it was cached.
  ghost predicate NamesSeen(c: map<string, Entry<Names>>, moments: seq<Moment>, latency: nat, nsTTL: nat, svcTTL: nat) {
    && (NS_KEY in c ==> NamespacesSeen(c[NS_KEY], moments, latency, nsTTL))
    && (forall ns :: SvcKey(ns) in c ==> ServicesSeen(c[SvcKey(ns)], ns, moments, latency, svcTTL))
  }

  lemma NamesSeenStay(c: map<string, Entry<Names>>, c': map<string, Entry<Names>>, moments: seq<Moment>, moments': seq<Moment>,
                      latency: nat, nsTTL: nat, svcTTL: nat)
    requires NamesSeen(c, moments, latency, nsTTL, svcTTL) && Within(c', c) && moments <= moments'
    ensures NamesSeen(c', moments', latency, nsTTL, svcTTL)
  {
    forall m | m in moments ensures m in moments' {}
    if NS_KEY in c' {
      assert NamespacesSeen(c[NS_KEY], moments, latency, nsTTL);
    }
    forall ns | SvcKey(ns) in c' ensures ServicesSeen(c'[SvcKey(ns)], ns, moments', latency, svcTTL) {
      assert ServicesSeen(c[SvcKey(ns)], ns, moments, latency, svcTTL);
    }
  }

  lemma NamespacesSeenWith(c: map<string, Entry<Names>>, c': map<string, Entry<Names>>, m: Moment, moments: seq<Moment>, now: nat,
                           latency: nat, nsTTL: nat, svcTTL: nat)
    requires NamesSeen(c, moments, latency, nsTTL, svcTTL) && Within(c' - {NS_KEY}, c) && m in moments
    requires NS_KEY in c' && c'[NS_KEY] == Entry(Namespaces(m.world.Keys), now + nsTTL) && m.at <= now <= m.at + latency
    ensures NamesSeen(c', moments, latency, nsTTL, svcTTL)
  {
    assert NamespacesAt(m, m.world.Keys, now, latency);
    forall ns | SvcKey(ns) in c' ensures ServicesSeen(c'[SvcKey(ns)], ns, moments, latency, svcTTL) {
      SvcKeysDistinct(ns, ns);
      assert SvcKey(ns) in c' - {NS_KEY};
      assert ServicesSeen(c[SvcKey(ns)], ns, moments, latency, svcTTL);
    }
  }

  lemma ServicesSeenWith(c: map<string, Entry<Names>>, c': map<string, Entry<Names>>, nsName: string, m: Moment, moments: seq<Moment>,
                         now: nat, latency: nat, nsTTL: nat, svcTTL: nat)
    requires NamesSeen(c, moments, latency, nsTTL, svcTTL) && Within(c' - {SvcKey(nsName)}, c) && m in moments && nsName in m.world
    requires SvcKey(nsName) in c' && c'[SvcKey(nsName)] == Entry(ServiceIds(m.world[nsName].Keys), now + svcTTL)
    requires m.at <= now <= m.at + latency
    ensures NamesSeen(c', moments, latency, nsTTL, svcTTL)
  {
    SvcKeysDistinct(nsName, nsName);
    assert ServicesAt(m, nsName, m.world[nsName].Keys, now, latency);
    if NS_KEY in c' {
      assert NS_KEY in c' - {SvcKey(nsName)};
    }
    forall ns | SvcKey(ns) in c' ensures ServicesSeen(c'[SvcKey(ns)], ns, moments, latency, svcTTL) {
      SvcKeysDistinct(ns, nsName);
      if ns != nsName {
        assert SvcKey(ns) in c' - {SvcKey(nsName)};
        assert ServicesSeen(c[SvcKey(ns)], ns, moments, latency, svcTTL);
      }
    }
  }

  lemma NamesStay(c: map<string, Entry<Names>>, c': map<string, Entry<Names>>, known: set<(string, string)>, w: World, w': World)
    requires NamesKnow(c, known) && NamesTrue(c, w) && Within(c', c)
    requires (forall ns :: ns in w ==> ns in w') && forall ns, svc :: Has(w, ns, svc) ==> Has(w', ns, svc)
    ensures NamesKnow(c', known) && NamesTrue(c', w')
  {
  }

  // A fresh list of namespaces joins the cache.
  lemma NamespacesWith(c: map<string, Entry<Names>>, c': map<string, Entry<Names>>, names: set<string>, known: set<(string, string)>,
                       w0: World, w: World)
    requires NamesKnow(c, known) && NamesTrue(c, w0) && Within(c' - {NS_KEY}, c)
    requires NS_KEY in c' && c'[NS_KEY].value == Namespaces(names)
    requires w0.Keys <= names <= w.Keys && Exist(known, w0) && forall ns, svc :: Has(w0, ns, svc) ==> Has(w, ns, svc)
    ensures NamesKnow(c', known) && NamesTrue(c', w)
  {
    forall ns: string ensures SvcKey(ns) != NS_KEY { SvcKeysDistinct(ns, ns); }
    forall k | k in c' && k != NS_KEY ensures k in c && c[k] == c'[k] { assert k in c' - {NS_KEY}; }
    forall p | p in known ensures p.0 in names { assert Has(w0, p.0, p.1); }
  }

  // A fresh list of the services of one namespace joins the cache.
  lemma ServiceIdsWith(c: map<string, Entry<Names>>, c': map<string, Entry<Names>>, nsName: string, names: set<string>,
                       known: set<(string, string)>, w: World)
    requires NamesKnow(c, known) && NamesTrue(c, w) && Within(c' - {SvcKey(nsName)}, c)
    requires SvcKey(nsName) in c' && c'[SvcKey(nsName)].value == ServiceIds(names)
    requires nsName in w && NamedIn(c, nsName) && forall svc :: svc in names ==> Has(w, nsName, svc)
    requires forall p :: p in known && p.0 == nsName ==> p.1 in names
    ensures NamesKnow(c', known) && NamesTrue(c', w) && NamedIn(c', nsName)
  {
    SvcKeysDistinct(nsName, nsName);
    forall ns: string ensures SvcKey(ns) == SvcKey(nsName) <==> ns == nsName { SvcKeysDistinct(ns, nsName); }
    forall k | k in c' && k != SvcKey(nsName) ensures k in c && c[k] == c'[k] { assert k in c' - {SvcKey(nsName)}; }
  }

  // What the cache says stays true while others write and reads are made.
  lemma ReadKeeps(names: map<string, Entry<Names>>, endpts: map<string, Entry<seq<Endpoint>>>, known: set<(string, string)>,
                  w: World, w': World, moments: seq<Moment>, moments': seq<Moment>,
                  setId: string, clusterId: string, latency: nat, nsTTL: nat, svcTTL: nat, endptTTL: nat)
    requires EntriesOk(endpts, w, moments, setId, clusterId, latency, endptTTL)
    requires NamesKnow(names, known) && NamesTrue(names, w) && NamesSeen(names, moments, latency, nsTTL, svcTTL)
    requires Exist(known, w) && OwnKnown(known, w, setId, clusterId)
    requires Grows(w, w', setId, clusterId) && moments <= moments'
    ensures EntriesOk(endpts, w', moments', setId, clusterId, latency, endptTTL)
    ensures NamesTrue(names, w') && NamesSeen(names, moments', latency, nsTTL, svcTTL)
    ensures Exist(known, w') && OwnKnown(known, w', setId, clusterId)
  {
    EntriesStay(endpts, endpts, w, w', moments, moments', setId, clusterId, latency, endptTTL);
    NamesStay(names, names, known, w, w');
    NamesSeenStay(names, names, moments, moments', latency, nsTTL, svcTTL);
  }

  // ---- Reading instances ----

  // The instances that convert; the others are skipped.
  function Converted(insts: seq<Instance>): seq<Endpoint> {
    if insts == [] then [] else
      var last := NewEndpointFromInstance(insts[|insts| - 1].id, insts[|insts| - 1].attributes);
      Converted(insts[..|insts| - 1]) + if last.Ok? then [last.value] else []
  }

  lemma {:induction false} ConvertedHas(insts: seq<Instance>, e: Endpoint)
    ensures e in Converted(insts) <==>
            exists inst :: inst in insts && NewEndpointFromInstance(inst.id, inst.attributes) == Ok(e)
  {
    if insts != [] {
      var init, last := insts[..|insts| - 1], insts[|insts| - 1];
      assert insts == init + [last];
      ConvertedHas(init, e);
    }
  }

  lemma {:induction false} ConvertedDistinct(insts: seq<Instance>)
    requires forall i, j :: 0 <= i < j < |insts| ==> insts[i].id != insts[j].id
    ensures DistinctIds(Converted(insts))
  {
    if insts != [] {
      var init, last := insts[..|insts| - 1], insts[|insts| - 1];
      ConvertedDistinct(init);
      var es := Converted(init);
      forall i | 0 <= i < |es| ensures es[i].id != last.id {
        ConvertedHas(init, es[i]);
        var inst :| inst in init && NewEndpointFromInstance(inst.id, inst.attributes) == Ok(es[i]);
        ParsedIsEncodable(inst.id, inst.attributes);
      }
      if NewEndpointFromInstance(last.id, last.attributes).Ok? {
        ParsedIsEncodable(last.id, last.attributes);
      }
    }
  }

  // Reading a listing of the instances gives a listing of the endpoints.
  lemma ConvertedLists(insts: seq<Instance>, reg: Instances, setId: string)
    requires ListsInstances(insts, reg, setId)
    ensures Lists(Converted(insts), Registry.Listed(reg, setId))
  {
    var m, es := Registry.Listed(reg, setId), Converted(insts);
    ConvertedDistinct(insts);
    forall e | e in es ensures e.id in m && m[e.id] == e {
      ConvertedHas(insts, e);
      var inst :| inst in insts && NewEndpointFromInstance(inst.id, inst.attributes) == Ok(e);
      ParsedIsEncodable(inst.id, inst.attributes);
    }
    forall id | id in m ensures id in Ids(es) {
      ParsedIsEncodable(id, reg[id]);
      ConvertedHas(insts, m[id]);
      assert Instance(id, reg[id]) in insts;
    }
  }

  // ---- The client ----

  class ServiceDiscoveryClient {
    const api: Api
    const cache: SdCache
    // What GetClusterProperties answers, or why it cannot.
    const properties: Result<string>
    // The services no cached list hides from this client: those it created or saw listed, and those that were
    // there before it started.
    ghost var known: set<(string, string)>

    constructor (api: Api, cache: SdCache, properties: Result<string>)
      requires api.Valid() && cache.defaultCache == map[] && cache.endpointsCache == map[]
      requires properties.Ok? ==> properties.value == api.setId
      requires properties.Err? ==> !properties.error.notFound
      ensures Coherent() && this.api == api && this.cache == cache
    {
      this.api, this.cache, this.properties := api, cache, properties;
      known := set ns, svc | ns in api.world && svc in api.world[ns] :: (ns, svc);
    }

    // The cache tells the truth: about this cluster's instances as they are now, about everything else as it was
    // not long before it was cached, and about every service this client knows.
    ghost predicate Coherent()
      reads this, api, cache
    {
      && api.Valid()
      && EntriesOk(cache.endpointsCache, api.world, api.moments, api.setId, api.clusterId, api.latency, cache.endptTTL)
      && NamesKnow(cache.defaultCache, known)
      && NamesTrue(cache.defaultCache, api.world)
      && NamesSeen(cache.defaultCache, api.moments, api.latency, cache.nsTTL, cache.svcTTL)
      && Exist(known, api.world)
      && OwnKnown(known, api.world, api.setId, api.clusterId)
      && CachedKnown(cache.endpointsCache, known)
      && (properties.Ok? ==> properties.value == api.setId)
      && (properties.Err? ==> !properties.error.notFound)
    }

    // The registry only grew, and this cluster's part of it did not change.
    twostate predicate OnlyRead()
      reads this, api
    {
      && Grows(old(api.world), api.world, api.setId, api.clusterId)
      && old(api.moments) <= api.moments && old(api.now) <= api.now && old(api.failures) <= api.failures && old(known) <= known
      && api.applied == old(api.applied) && api.reported == old(api.reported)
    }

    // Something this client depends on came back with an error.
    twostate predicate Complained()
      reads this, api
    {
      api.failures > old(api.failures) || properties.Err?
    }

    // Time passes and other clusters write, between two calls of this client.
    method Meanwhile(limit: nat)
      requires Coherent()
      modifies api`now, api`world
      ensures Coherent() && OnlyRead() && api.failures == old(api.failures)
    {
      ghost var w := api.world;
      api.Others(limit);
      EntriesStay(cache.endpointsCache, cache.endpointsCache, w, api.world, api.moments, api.moments,
                  api.setId, api.clusterId, api.latency, cache.endptTTL);
      NamesStay(cache.defaultCache, cache.defaultCache, known, w, api.world);
    }

    // The list of namespaces, or of the services of one, was true no longer ago than its time to live plus the latency.
    ghost predicate WereNamespaces(m: Moment, names: set<string>)
      reads api, cache
    {
      m.world.Keys == names && m.at <= api.now <= m.at + api.latency + cache.nsTTL
    }

    ghost predicate WereServices(m: Moment, nsName: string, names: set<string>)
      reads api, cache
    {
      nsName in m.world && m.world[nsName].Keys == names && m.at <= api.now <= m.at + api.latency + cache.svcTTL
    }

    ghost predicate RecentNamespaces(names: set<string>)
      reads this, api, cache
    {
      exists m :: m in api.moments && WereNamespaces(m, names)
    }

    ghost predicate RecentServices(nsName: string, names: set<string>)
      reads this, api, cache
    {
      exists m :: m in api.moments && WereServices(m, nsName, names)
    }

    // The service, or its namespace, was not there no longer ago than that.
    ghost predicate WasAbsent(m: Moment, nsName: string, svcName: string)
      reads api, cache
    {
      && !Has(m.world, nsName, svcName)
      && m.at <= api.now <= m.at + api.latency + if nsName in m.world then cache.svcTTL else cache.nsTTL
    }

    ghost predicate RecentlyAbsent(nsName: string, svcName: string)
      reads this, api, cache
    {
      exists m :: m in api.moments && WasAbsent(m, nsName, svcName)
    }

    ghost predicate RecentlyNoNamespace(nsName: string)
      reads this, api, cache
    {
      exists m :: m in api.moments && nsName !in m.world && m.at <= api.now <= m.at + api.latency + cache.nsTTL
    }

    // The unexpired list of names the cache has under a key
    function NamesHeld(key: string): Option<Names>
      reads api, cache
    {
      if key in cache.defaultCache && api.now <= cache.defaultCache[key].expires then Some(cache.defaultCache[key].value) else None
    }

    // A held list is the answer, without a call; any other answer is held from then on.
    method GetNamespaces() returns (r: Result<set<string>>)
      requires Coherent()
      modifies api, cache`defaultCache
      ensures Coherent() && OnlyRead()
      ensures forall names :: old(NamesHeld(NS_KEY)) == Some(Namespaces(names)) ==> unchanged(api) && r == Ok(names)
      ensures r.Ok? ==> NamesHeld(NS_KEY) == Some(Namespaces(r.value))
      ensures r.Ok? ==> RecentNamespaces(r.value)
      ensures r.Ok? ==> r.value <= api.world.Keys && forall p :: p in known ==> p.0 in r.value
      ensures r.Ok? ==> forall ns :: ns in r.value ==> NamedIn(cache.defaultCache, ns)
      ensures r.Err? ==> !r.error.notFound
      ensures r.Err? ==> api.failures > old(api.failures)
    {
      // We are assuming a unique namespace name per account
      var names := LookUpNamespaces();
      if names.Some? {
        r := Ok(names.value);
      } else {
        r := FetchNamespaces();
      }
    }

    method LookUpNamespaces() returns (names: Option<set<string>>)
      requires Coherent()
      modifies cache`defaultCache
      ensures Coherent()
      ensures names.Some? <==> old(NamesHeld(NS_KEY)).Some? && old(NamesHeld(NS_KEY)).value.Namespaces?
      ensures names.Some? ==> old(NamesHeld(NS_KEY)) == NamesHeld(NS_KEY) == Some(Namespaces(names.value))
      ensures names.Some? ==> RecentNamespaces(names.value)
      ensures names.Some? ==> names.value <= api.world.Keys && forall p :: p in known ==> p.0 in names.value
      ensures names.Some? ==> forall ns :: ns in names.value ==> NamedIn(cache.defaultCache, ns)
    {
      ghost var before := cache.defaultCache;
      names := cache.GetNamespaceMap(api.now);
      NamesSeenStay(before, cache.defaultCache, api.moments, api.moments, api.latency, cache.nsTTL, cache.svcTTL);
      NamesStay(before, cache.defaultCache, known, api.world, api.world);
      if names.Some? {
        assert NamespacesSeen(before[NS_KEY], api.moments, api.latency, cache.nsTTL);
        ghost var m :| m in api.moments && NamespacesAt(m, names.value, before[NS_KEY].expires - cache.nsTTL, api.latency);
        assert WereNamespaces(m, names.value);
      }
    }

    // The rest of GetNamespaces
    method FetchNamespaces() returns (r: Result<set<string>>)
      requires Coherent()
      modifies api, cache`defaultCache
      ensures Coherent() && OnlyRead()
      ensures r.Ok? ==> NamesHeld(NS_KEY) == Some(Namespaces(r.value))
      ensures r.Ok? ==> RecentNamespaces(r.value)
      ensures r.Ok? ==> r.value <= api.world.Keys && forall p :: p in known ==> p.0 in r.value
      ensures r.Ok? ==> forall ns :: ns in r.value ==> NamedIn(cache.defaultCache, ns)
      ensures r.Err? ==> !r.error.notFound
      ensures r.Err? ==> api.failures > old(api.failures)
    {
      ghost var taken;
      r, taken := ReadNamespaces();
      if r.Ok? {
        StoreNamespaces(r.value, taken);
      }
    }

    method ReadNamespaces() returns (r: Result<set<string>>, ghost taken: Moment)
      requires Coherent()
      modifies api
      ensures Coherent() && OnlyRead() && Fits(taken)
      ensures r.Ok? ==> r.value == taken.world.Keys
      ensures r.Err? ==> !r.error.notFound && api.failures > old(api.failures)
    {
      ghost var w, moments := api.world, api.moments;
      r, taken := api.GetNamespaceMap();
      ReadKeeps(cache.defaultCache, cache.endpointsCache, known, w, api.world, moments, api.moments,
                api.setId, api.clusterId, api.latency, cache.nsTTL, cache.svcTTL, cache.endptTTL);
      NamesStay(cache.defaultCache, cache.defaultCache, known, w, taken.world);
    }

    // A read just taken: what the cache says was true then.
    ghost predicate Fits(taken: Moment)
      reads this, api, cache
    {
      && taken in api.moments && taken.at <= api.now <= taken.at + api.latency
      && Grows(taken.world, api.world, api.setId, api.clusterId)
      && NamesTrue(cache.defaultCache, taken.world) && Exist(known, taken.world)
    }

    // The end of GetNamespaces
    method StoreNamespaces(names: set<string>, ghost taken: Moment)
      requires Coherent() && Fits(taken) && names == taken.world.Keys
      modifies cache`defaultCache
      ensures NamesHeld(NS_KEY) == Some(Namespaces(names))
      ensures Coherent() && RecentNamespaces(names) && forall ns :: ns in names ==> NamedIn(cache.defaultCache, ns)
    {
      ghost var before := cache.defaultCache;
      cache.CacheNamespaceMap(names, api.now);
      NamespacesWith(before, cache.defaultCache, names, known, taken.world, api.world);
      NamespacesSeenWith(before, cache.defaultCache, taken, api.moments, api.now, api.latency, cache.nsTTL, cache.svcTTL);
      assert WereNamespaces(taken, names);
    }

    method GetNamespace(nsName: string) returns (r: Result<string>)
      requires Coherent()
      modifies api, cache`defaultCache
      ensures Coherent() && OnlyRead()
      ensures r.Ok? ==> r.value == nsName && nsName in api.world && NamedIn(cache.defaultCache, nsName)
      ensures r.Err? && r.error.notFound ==> RecentlyNoNamespace(nsName) && forall p :: p in known ==> p.0 != nsName
      ensures r.Err? && !r.error.notFound ==> api.failures > old(api.failures)
    {
      var namespaces := GetNamespaces();
      if namespaces.Err? {
        r := Err(namespaces.error);
      } else if nsName in namespaces.value {
        r := Ok(nsName);
      } else {
        ghost var m :| m in api.moments && WereNamespaces(m, namespaces.value);
        r := Err(NotFoundError("namespace: " + nsName));
      }
    }

    method GetServiceIds(nsName: string) returns (r: Result<set<string>>)
      requires Coherent()
      modifies this`known, api, cache`defaultCache
      ensures Coherent() && OnlyRead()
      ensures forall names :: old(NamesHeld(SvcKey(nsName))) == Some(ServiceIds(names)) ==> unchanged(api) && r == Ok(names)
      ensures r.Ok? ==> NamesHeld(SvcKey(nsName)) == Some(ServiceIds(r.value))
      ensures r.Ok? ==> RecentServices(nsName, r.value)
      ensures r.Ok? ==> forall p :: p in known && p.0 == nsName ==> p.1 in r.value
      ensures r.Ok? ==> forall svc :: svc in r.value ==> (nsName, svc) in known
      ensures r.Err? && r.error.notFound ==> RecentlyNoNamespace(nsName) && forall p :: p in known ==> p.0 != nsName
      ensures r.Err? ==> known == old(known)
      ensures r.Err? && !r.error.notFound ==> api.failures > old(api.failures)
    {
      var names := LookUpServiceIds(nsName);
      if names.Some? {
        r := Ok(names.value);
      } else {
        r := FindServiceIds(nsName);
      }
      if r.Ok? {
        Learn(nsName, r.value);
      }
    }

    method LookUpServiceIds(nsName: string) returns (names: Option<set<string>>)
      requires Coherent()
      modifies cache`defaultCache
      ensures Coherent()
      ensures names.Some? <==> old(NamesHeld(SvcKey(nsName))).Some? && old(NamesHeld(SvcKey(nsName))).value.ServiceIds?
      ensures names.Some? ==> old(NamesHeld(SvcKey(nsName))) == NamesHeld(SvcKey(nsName)) == Some(ServiceIds(names.value))
      ensures names.Some? ==> RecentServices(nsName, names.value) && forall p :: p in known && p.0 == nsName ==> p.1 in names.value
      ensures names.Some? ==> forall svc :: svc in names.value ==>
                Has(api.world, nsName, svc) && ServiceNamedIn(cache.defaultCache, nsName, svc)
    {
      ghost var before := cache.defaultCache;
      names := cache.GetServiceIdMap(nsName, api.now);
      NamesSeenStay(before, cache.defaultCache, api.moments, api.moments, api.latency, cache.nsTTL, cache.svcTTL);
      NamesStay(before, cache.defaultCache, known, api.world, api.world);
      if names.Some? {
        assert ServicesSeen(before[SvcKey(nsName)], nsName, api.moments, api.latency, cache.svcTTL);
        ghost var m :| m in api.moments && ServicesAt(m, nsName, names.value, before[SvcKey(nsName)].expires - cache.svcTTL, api.latency);
        assert WereServices(m, nsName, names.value);
      }
    }

    // GetServiceIds, when no list is cached
    method FindServiceIds(nsName: string) returns (r: Result<set<string>>)
      requires Coherent()
      modifies api, cache`defaultCache
      ensures Coherent() && OnlyRead()
      ensures r.Ok? ==> NamesHeld(SvcKey(nsName)) == Some(ServiceIds(r.value))
      ensures r.Ok? ==> RecentServices(nsName, r.value) && forall p :: p in known && p.0 == nsName ==> p.1 in r.value
      ensures r.Ok? ==> forall svc :: svc in r.value ==> Has(api.world, nsName, svc) && ServiceNamedIn(cache.defaultCache, nsName, svc)
      ensures r.Err? && r.error.notFound ==> RecentlyNoNamespace(nsName) && forall p :: p in known ==> p.0 != nsName
      ensures r.Err? && !r.error.notFound ==> api.failures > old(api.failures)
    {
      var namespace := GetNamespace(nsName);
      if namespace.Err? {
        r := Err(namespace.error);
      } else {
        r := FetchServiceIds(nsName);
      }
    }

    // The rest of it
    method FetchServiceIds(nsName: string) returns (r: Result<set<string>>)
      requires Coherent() && NamedIn(cache.defaultCache, nsName)
      modifies api, cache`defaultCache
      ensures Coherent() && OnlyRead()
      ensures r.Ok? ==> NamesHeld(SvcKey(nsName)) == Some(ServiceIds(r.value))
      ensures r.Ok? ==> RecentServices(nsName, r.value) && forall p :: p in known && p.0 == nsName ==> p.1 in r.value
      ensures r.Ok? ==> forall svc :: svc in r.value ==> Has(api.world, nsName, svc) && ServiceNamedIn(cache.defaultCache, nsName, svc)
      ensures r.Err? ==> !r.error.notFound
      ensures r.Err? ==> api.failures > old(api.failures)
    {
      ghost var taken;
      r, taken := ReadServiceIds(nsName);
      if r.Ok? {
        StoreServiceIds(nsName, r.value, taken);
      }
    }

    method ReadServiceIds(nsName: string) returns (r: Result<set<string>>, ghost taken: Moment)
      requires Coherent()
      modifies api
      ensures Coherent() && OnlyRead() && Fits(taken)
      ensures r.Ok? ==> nsName in taken.world && r.value == taken.world[nsName].Keys
      ensures r.Err? ==> !r.error.notFound && api.failures > old(api.failures)
    {
      ghost var w, moments := api.world, api.moments;
      r, taken := api.GetServiceIdMap(nsName);
      ReadKeeps(cache.defaultCache, cache.endpointsCache, known, w, api.world, moments, api.moments,
                api.setId, api.clusterId, api.latency, cache.nsTTL, cache.svcTTL, cache.endptTTL);
      NamesStay(cache.defaultCache, cache.defaultCache, known, w, taken.world);
    }

    // The end of GetServiceIds
    method StoreServiceIds(nsName: string, names: set<string>, ghost taken: Moment)
      requires Coherent() && Fits(taken) && NamedIn(cache.defaultCache, nsName)
      requires nsName in taken.world && names == taken.world[nsName].Keys
      modifies cache`defaultCache
      ensures NamesHeld(SvcKey(nsName)) == Some(ServiceIds(names))
      ensures Coherent() && RecentServices(nsName, names) && forall p :: p in known && p.0 == nsName ==> p.1 in names
      ensures forall svc :: svc in names ==> Has(api.world, nsName, svc) && ServiceNamedIn(cache.defaultCache, nsName, svc)
    {
      ghost var before := cache.defaultCache;
      forall svc | svc in names ensures Has(api.world, nsName, svc) { assert Has(taken.world, nsName, svc); }
      forall p | p in known && p.0 == nsName ensures p.1 in names { assert Has(taken.world, p.0, p.1); }
      cache.CacheServiceIdMap(nsName, names, api.now);
      ServiceIdsWith(before, cache.defaultCache, nsName, names, known, api.world);
      ServicesSeenWith(before, cache.defaultCache, nsName, taken, api.moments, api.now, api.latency, cache.nsTTL, cache.svcTTL);
      assert WereServices(taken, nsName, names);
    }

    method GetServiceId(nsName: string, svcName: string) returns (r: Result<string>)
      requires Coherent()
      modifies this`known, api, cache`defaultCache
      ensures Coherent() && OnlyRead()
      ensures r.Ok? ==> r.value == svcName && Has(api.world, nsName, svcName)
      ensures r.Ok? ==> (nsName, svcName) in known
      ensures r.Err? && r.error.notFound ==> RecentlyAbsent(nsName, svcName) && (nsName, svcName) !in known
      ensures r.Err? && !r.error.notFound ==> api.failures > old(api.failures)
    {
      var svcIdMap := GetServiceIds(nsName);
      if svcIdMap.Err? {
        r := Err(svcIdMap.error);
        NoNamespaceNoService(nsName, svcName);
      } else if svcName in svcIdMap.value {
        r := Ok(svcName);
      } else {
        ghost var m :| m in api.moments && WereServices(m, nsName, svcIdMap.value);
        assert WasAbsent(m, nsName, svcName);
        r := Err(NotFoundError("service: " + svcName));
      }
    }

    lemma NoNamespaceNoService(nsName: string, svcName: string)
      ensures RecentlyNoNamespace(nsName) ==> RecentlyAbsent(nsName, svcName)
    {
      if RecentlyNoNamespace(nsName) {
        var m :| m in api.moments && nsName !in m.world && m.at <= api.now <= m.at + api.latency + cache.nsTTL;
        assert WasAbsent(m, nsName, svcName);
      }
    }

    // The services of a list in the cache are known from now on.
    ghost method Learn(nsName: string, names: set<string>)
      requires Coherent()
      requires forall svc :: svc in names ==> Has(api.world, nsName, svc) && ServiceNamedIn(cache.defaultCache, nsName, svc)
      modifies this`known
      ensures Coherent() && known == old(known) + set svc | svc in names :: (nsName, svc)
    {
      known := known + set svc | svc in names :: (nsName, svc);
    }

    // The list was the registry's content a moment ago, at most the latency and the cache's lifetime back,
    // and this cluster's part of it is the registry's content now.
    ghost predicate Recent(endpts: seq<Endpoint>, nsName: string, svcName: string)
      reads this, api, cache
    {
      && OwnOf(ById(endpts), api.clusterId) == OwnAt(api.world, nsName, svcName, api.setId, api.clusterId)
      && exists m :: m in api.moments && WasListed(m, endpts, nsName, svcName)
    }

    ghost predicate WasListed(m: Moment, endpts: seq<Endpoint>, nsName: string, svcName: string)
      reads api, cache
    {
      && Lists(endpts, Registry.Listed(InstancesAt(m.world, nsName, svcName), api.setId))
      && m.at <= api.now <= m.at + api.latency + cache.endptTTL
    }

    // An unexpired list of the service's endpoints is in the cache.
    predicate Holds(nsName: string, svcName: string)
      reads api, cache
    {
      var key := EndptsKey(nsName, svcName);
      key in cache.endpointsCache && api.now <= cache.endpointsCache[key].expires
    }

    function Held(nsName: string, svcName: string): seq<Endpoint>
      requires Holds(nsName, svcName)
      reads api, cache
    {
      cache.endpointsCache[EndptsKey(nsName, svcName)].value
    }

    // A held list is the answer, without a call; any other answer is held from then on.
    method GetEndpoints(nsName: string, svcName: string) returns (r: Result<seq<Endpoint>>)
      requires Coherent() && ':' !in svcName && (nsName, svcName) in known
      modifies api, cache`endpointsCache
      ensures Coherent() && OnlyRead()
      ensures old(Holds(nsName, svcName)) ==> unchanged(api) && r == Ok(old(Held(nsName, svcName)))
      ensures r.Ok? ==> Holds(nsName, svcName) && Held(nsName, svcName) == r.value
      ensures r.Ok? ==> Recent(r.value, nsName, svcName)
      ensures r.Err? ==> !r.error.notFound
      ensures r.Err? ==> Complained()
    {
      var endpts := LookUpEndpoints(nsName, svcName);
      if endpts.Some? {
        r := Ok(endpts.value);
      } else if properties.Err? {
        r := Err(properties.error);
      } else {
        r := FetchEndpoints(nsName, svcName);
      }
    }

    method LookUpEndpoints(nsName: string, svcName: string) returns (endpts: Option<seq<Endpoint>>)
      requires Coherent() && ':' !in svcName
      modifies cache`endpointsCache
      ensures Coherent() && Within(cache.endpointsCache, old(cache.endpointsCache))
      ensures endpts == if old(Holds(nsName, svcName)) then Some(old(Held(nsName, svcName))) else None
      ensures endpts.Some? ==> cache.endpointsCache == old(cache.endpointsCache)
      ensures endpts.Some? ==> Recent(endpts.value, nsName, svcName)
      ensures endpts.Some? ==> (nsName, svcName) in known
    {
      ghost var before := cache.endpointsCache;
      endpts := cache.GetEndpoints(nsName, svcName, api.now);
      EntriesStay(before, cache.endpointsCache, api.world, api.world, api.moments, api.moments,
                  api.setId, api.clusterId, api.latency, cache.endptTTL);
      if endpts.Some? {
        assert EntryOk(before[EndptsKey(nsName, svcName)], nsName, svcName, api.world, api.moments,
                       api.setId, api.clusterId, api.latency, cache.endptTTL);
      }
    }

    // The rest of GetEndpoints
    method FetchEndpoints(nsName: string, svcName: string) returns (r: Result<seq<Endpoint>>)
      requires Coherent() && ':' !in svcName && (nsName, svcName) in known
      modifies api, cache`endpointsCache
      ensures Coherent() && OnlyRead()
      ensures r.Ok? ==> Holds(nsName, svcName) && Held(nsName, svcName) == r.value
      ensures r.Ok? ==> Recent(r.value, nsName, svcName)
      ensures r.Err? ==> !r.error.notFound
      ensures r.Err? ==> Complained()
    {
      var insts;
      ghost var taken;
      insts, taken := ReadInstances(nsName, svcName);
      if insts.Err? {
        r := Err(insts.error);
      } else {
        var endpts := ConvertInstances(insts.value);
        ConvertedLists(insts.value, InstancesAt(taken.world, nsName, svcName), api.setId);
        StoreEndpoints(nsName, svcName, endpts, taken);
        r := Ok(endpts);
      }
    }

    method ReadInstances(nsName: string, svcName: string) returns (r: Result<seq<Instance>>, ghost taken: Moment)
      requires Coherent()
      modifies api
      ensures Coherent() && OnlyRead() && Fits(taken)
      ensures r.Ok? ==> ListsInstances(r.value, InstancesAt(taken.world, nsName, svcName), api.setId)
      ensures r.Err? ==> !r.error.notFound && api.failures > old(api.failures)
    {
      ghost var w, moments := api.world, api.moments;
      r, taken := api.DiscoverInstances(nsName, svcName);
      ReadKeeps(cache.defaultCache, cache.endpointsCache, known, w, api.world, moments, api.moments,
                api.setId, api.clusterId, api.latency, cache.nsTTL, cache.svcTTL, cache.endptTTL);
      NamesStay(cache.defaultCache, cache.defaultCache, known, w, taken.world);
    }

    // The end of GetEndpoints
    method StoreEndpoints(nsName: string, svcName: string, endpts: seq<Endpoint>, ghost taken: Moment)
      requires Coherent() && ':' !in svcName && (nsName, svcName) in known
      requires Lists(endpts, Registry.Listed(InstancesAt(taken.world, nsName, svcName), api.setId))
      requires Fits(taken)
      modifies cache`endpointsCache
      ensures Coherent() && Recent(endpts, nsName, svcName)
      ensures Holds(nsName, svcName) && Held(nsName, svcName) == endpts
    {
      ghost var before := cache.endpointsCache;
      NewEntryOk(endpts, taken, api.moments, api.now, api.world, nsName, svcName,
                 api.setId, api.clusterId, api.latency, cache.endptTTL);
      cache.CacheEndpoints(nsName, svcName, endpts, api.now);
      EntriesWith(before, cache.endpointsCache, nsName, svcName, api.world, api.moments,
                  api.setId, api.clusterId, api.latency, cache.endptTTL);
      CachedKnownWith(before, cache.endpointsCache, nsName, svcName, known);
      assert WasListed(taken, endpts, nsName, svcName);
    }

    // The loop of GetEndpoints
    method ConvertInstances(insts: seq<Instance>) returns (endpts: seq<Endpoint>)
      ensures endpts == Converted(insts)
    {
      endpts := [];
      for i := 0 to |insts|
        invariant endpts == Converted(insts[..i])
      {
        assert insts[..i + 1][..i] == insts[..i];
        var endpt := NewEndpointFromInstance(insts[i].id, insts[i].attributes);
        if endpt.Ok? {
          endpts := endpts + [endpt.value];
        }
      }
      assert insts[..|insts|] == insts;
    }

    method GetService(nsName: string, svcName: string) returns (r: Result<Service>)
      requires Coherent() && ':' !in svcName
      modifies this`known, api, cache`defaultCache, cache`endpointsCache
      ensures Coherent() && OnlyRead()
      ensures old(Holds(nsName, svcName)) ==> unchanged(api) && r == Ok(Service(nsName, svcName, old(Held(nsName, svcName))))
      ensures r.Ok? ==> Holds(nsName, svcName) && Held(nsName, svcName) == r.value.endpoints
      ensures r.Ok? ==> r.value.namespace_ == nsName && r.value.name == svcName && Recent(r.value.endpoints, nsName, svcName)
      ensures r.Err? && r.error.notFound ==> RecentlyAbsent(nsName, svcName) && (nsName, svcName) !in known
      ensures r.Ok? ==> (nsName, svcName) in known
      ensures r.Err? && !r.error.notFound ==> Complained()
    {
      var cached := LookUpEndpoints(nsName, svcName);
      if cached.Some? {
        r := Ok(Service(nsName, svcName, cached.value));
      } else {
        var svcId := GetServiceId(nsName, svcName);
        if svcId.Err? {
          r := Err(svcId.error);
        } else {
          ghost var before := api.world;
          var endpts := GetEndpoints(nsName, svcName);
          GrowsOn(old(api.world), before, api.world, api.setId, api.clusterId);
          r := if endpts.Err? then Err(endpts.error) else Ok(Service(nsName, svcName, endpts.value));
        }
      }
    }

    method ListServices(nsName: string) returns (svcs: seq<Service>, err: Option<Error>)
      requires Coherent()
      modifies this`known, api, cache`defaultCache, cache`endpointsCache
      ensures Coherent() && OnlyRead()
      ensures ReadNow(svcs, nsName, old(api.now))
      ensures err == None ==> ListsAll(nsName, NamesOf(svcs), old(api.now))
      ensures err == None ==> forall p :: p in known && p.0 == nsName ==> p.1 in NamesOf(svcs)
      ensures err.Some? ==> !err.value.notFound && Complained()
    {
      ghost var since := api.now;
      var svcIdMap := GetServiceIds(nsName);
      if svcIdMap.Ok? {
        ghost var m :| m in api.moments && WereServices(m, nsName, svcIdMap.value);
        ghost var before := api.world;
        svcs, err := ListEach(nsName, svcIdMap.value, since);
        GrowsOn(old(api.world), before, api.world, api.setId, api.clusterId);
        assert err == None ==> m in api.moments && WereAll(m, nsName, NamesOf(svcs), since);
      } else {
        // Ignore resource not found error, as it will indicate deleted resources in CloudMap
        svcs := [];
        err := if svcIdMap.error.notFound then None else Some(svcIdMap.error);
        NothingListed(nsName, since);
      }
    }

    lemma NothingListed(nsName: string, since: nat)
      requires since <= api.now
      ensures RecentlyNoNamespace(nsName) ==> ListsAll(nsName, NamesOf([]), since)
    {
      if RecentlyNoNamespace(nsName) {
        var m :| m in api.moments && nsName !in m.world && m.at <= api.now <= m.at + api.latency + cache.nsTTL;
        assert WereAll(m, nsName, NamesOf([]), since);
      }
    }

    // The names are those of all the services the namespace had, no longer before `since` than the lists' time to live
    // plus the latency; none if there was no such namespace.
    ghost predicate WereAll(m: Moment, nsName: string, names: set<string>, since: nat)
      reads api, cache
    {
      && m.at <= api.now
      && if nsName in m.world then names == m.world[nsName].Keys && since <= m.at + api.latency + cache.svcTTL
         else names == {} && since <= m.at + api.latency + cache.nsTTL
    }

    ghost predicate ListsAll(nsName: string, names: set<string>, since: nat)
      reads this, api, cache
    {
      exists m :: m in api.moments && WereAll(m, nsName, names, since)
    }

    ghost predicate ReadNow(svcs: seq<Service>, nsName: string, since: nat)
      reads this, api, cache
    {
      ServicesRead(svcs, nsName, api.world, api.moments, since - api.latency - cache.endptTTL, api.setId, api.clusterId)
    }

    // The loop of ListServices: range over the map, in any order, up to the first error.
    method ListEach(nsName: string, names: set<string>, ghost since: nat) returns (svcs: seq<Service>, err: Option<Error>)
      requires Coherent() && since <= api.now && forall svc :: svc in names ==> (nsName, svc) in known
      modifies api, cache`endpointsCache
      ensures Coherent() && OnlyRead()
      ensures ReadNow(svcs, nsName, since)
      ensures err == None ==> NamesOf(svcs) == names
      ensures err.Some? ==> !err.value.notFound
      ensures err.Some? ==> Complained()
    {
      svcs, err := [], None;
      var rest := names;
      while rest != {} && err == None
        invariant Coherent() && OnlyRead()
        invariant err.Some? ==> Complained()
        invariant ReadNow(svcs, nsName, since)
        invariant Partly(svcs, err, rest, names)
        decreases rest
      {
        ghost var before := api.world;
        var svcName :| svcName in rest;
        svcs, err := ListOne(svcs, nsName, svcName, rest, names, since);
        GrowsOn(old(api.world), before, api.world, api.setId, api.clusterId);
        rest := rest - {svcName};
      }
    }

    // The body of that loop
    method ListOne(before: seq<Service>, nsName: string, svcName: string,
                   ghost rest: set<string>, ghost names: set<string>, ghost since: nat)
      returns (svcs: seq<Service>, err: Option<Error>)
      requires Coherent() && ReadNow(before, nsName, since) && since <= api.now
      requires (nsName, svcName) in known && svcName in rest && Partly(before, None, rest, names)
      modifies api, cache`endpointsCache
      ensures Coherent() && OnlyRead()
      ensures ReadNow(svcs, nsName, since)
      ensures Partly(svcs, err, rest - {svcName}, names)
      ensures err.Some? ==> Complained()
    {
      ghost var w, moments := api.world, api.moments;
      var endpts := GetEndpoints(nsName, svcName);
      ServicesReadOn(before, nsName, w, api.world, moments, api.moments, since - api.latency - cache.endptTTL, api.setId, api.clusterId);
      if endpts.Err? {
        svcs, err := before, Some(endpts.error);
      } else {
        var s := Service(nsName, svcName, endpts.value);
        RecentIsRead(s, since);
        ServicesReadMore(before, s, nsName, api.world, api.moments, since - api.latency - cache.endptTTL, api.setId, api.clusterId);
        svcs, err := before + [s], None;
      }
    }

    lemma RecentIsRead(s: Service, since: nat)
      requires Recent(s.endpoints, s.namespace_, s.name) && (s.namespace_, s.name) in known && Exist(known, api.world) && since <= api.now
      ensures ServiceRead(s, s.namespace_, api.world, api.moments, since - api.latency - cache.endptTTL, api.setId, api.clusterId)
    {
      var m :| m in api.moments && WasListed(m, s.endpoints, s.namespace_, s.name);
      assert ListedSince(m, s.endpoints, s.namespace_, s.name, api.setId, since - api.latency - cache.endptTTL);
    }

    method CreateNamespace(nsName: string) returns (r: Result<string>)
      requires Coherent()
      modifies api`now, api`world, api`failures, cache`defaultCache
      ensures Coherent() && OnlyRead()
      ensures r.Ok? ==> r.value == nsName && nsName in api.world && NS_KEY !in cache.defaultCache
      ensures r.Err? ==> !r.error.notFound
      ensures r.Err? ==> api.failures > old(api.failures)
    {
      ghost var before := cache.defaultCache;
      var op := api.CreateHttpNamespace(nsName);
      if op.Err? {
        r := Err(op.error);
      } else {
        cache.EvictNamespaceMap();
        NamesStay(before, cache.defaultCache, known, old(api.world), api.world);
        r := Ok(nsName);
      }
    }

    method CreateService(nsName: string, svcName: string) returns (err: Option<Error>)
      requires Coherent() && ':' !in svcName
      modifies this`known, api, cache`defaultCache
      ensures Coherent() && OnlyRead()
      ensures known == if err == None then old(known) + {(nsName, svcName)} else old(known)
      ensures err.Some? ==> !err.value.notFound
      ensures err.Some? ==> api.failures > old(api.failures)
    {
      var namespace := FindOrCreateNamespace(nsName);
      if namespace.Err? {
        err := Some(namespace.error);
      } else {
        err := AddService(nsName, svcName);
      }
    }

    // The second half of CreateService
    method AddService(nsName: string, svcName: string) returns (err: Option<Error>)
      requires Coherent() && ':' !in svcName && NamedIn(cache.defaultCache, nsName)
      modifies this`known, api`now, api`world, api`failures, cache`defaultCache
      ensures Coherent() && OnlyRead()
      ensures known == if err == None then old(known) + {(nsName, svcName)} else old(known)
      ensures err.Some? ==> !err.value.notFound && api.failures > old(api.failures)
    {
      ghost var w := api.world;
      var svcId := api.CreateService(nsName, svcName);
      ReadKeeps(cache.defaultCache, cache.endpointsCache, known, w, api.world, api.moments, api.moments,
                api.setId, api.clusterId, api.latency, cache.nsTTL, cache.svcTTL, cache.endptTTL);
      if svcId.Err? {
        err := Some(svcId.error);
      } else {
        EvictServices(nsName, svcName);
        err := None;
      }
    }

    // A service just created is in no cached list: its namespace's list is evicted.
    method EvictServices(nsName: string, ghost svcName: string)
      requires Coherent() && NamedIn(cache.defaultCache, nsName) && Has(api.world, nsName, svcName)
      modifies this`known, cache`defaultCache
      ensures Coherent() && known == old(known) + {(nsName, svcName)}
    {
      ghost var names := cache.defaultCache;
      cache.EvictServiceIdMap(nsName);
      NamesWithout(names, nsName, svcName, known, api.world, api.world);
      NamesSeenStay(names, cache.defaultCache, api.moments, api.moments, api.latency, cache.nsTTL, cache.svcTTL);
      known := known + {(nsName, svcName)};
    }

    // The first half of CreateService: a cached list of namespaces either names the namespace or is evicted.
    method FindOrCreateNamespace(nsName: string) returns (r: Result<string>)
      requires Coherent()
      modifies api, cache`defaultCache
      ensures Coherent() && OnlyRead()
      ensures r.Ok? ==> NamedIn(cache.defaultCache, nsName)
      ensures r.Err? ==> !r.error.notFound
      ensures r.Err? ==> api.failures > old(api.failures)
    {
      var namespace := GetNamespace(nsName);
      if namespace.Err? && namespace.error.notFound {
        // Create HttpNamespace if the namespace is not present in CloudMap
        r := CreateNamespace(nsName);
      } else {
        r := namespace;
      }
    }

    method RegisterEndpoints(nsName: string, svcName: string, endpts: seq<Endpoint>) returns (err: Option<Error>, ghost log: seq<Effect>)
      requires Coherent() && ':' !in svcName
      requires forall e :: e in endpts ==> Exportable(e, api.setId, api.clusterId)
      modifies this`known, api, cache`defaultCache, cache`endpointsCache
      ensures Coherent() && OnlyWrote(nsName, svcName, log)
      ensures forall eff :: eff in log ==> eff in Registrations(endpts)
      ensures err == None ==> forall e :: e in endpts ==> Register(e) in log
      ensures endpts == [] ==> err == None
      ensures old(api.reported) <= api.reported && Says(err, api.reported[|old(api.reported)|..])
      ensures err.Some? ==> Complained() || (nsName, svcName) !in old(known)
    {
      err, log := WriteInstances(nsName, svcName, Registrations(endpts), "failure while registering endpoints");
      forall e | e in endpts ensures Register(e) in Registrations(endpts) { RegistrationsHave(endpts, e); }
    }

    method DeleteEndpoints(nsName: string, svcName: string, endpts: seq<Endpoint>) returns (err: Option<Error>, ghost log: seq<Effect>)
      requires Coherent() && ':' !in svcName
      modifies this`known, api, cache`defaultCache, cache`endpointsCache
      ensures Coherent() && OnlyWrote(nsName, svcName, log)
      ensures forall eff :: eff in log ==> eff in Deregistrations(endpts)
      ensures err == None ==> forall e :: e in endpts ==> Deregister(e.id) in log
      ensures endpts == [] ==> err == None
      ensures old(api.reported) <= api.reported && Says(err, api.reported[|old(api.reported)|..])
      ensures err.Some? ==> Complained() || (nsName, svcName) !in old(known)
    {
      err, log := WriteInstances(nsName, svcName, Deregistrations(endpts), "failure while de-registering endpoints");
      forall e | e in endpts ensures Deregister(e.id) in Deregistrations(endpts) { DeregistrationsHave(endpts, e); }
    }

    // What both do: nothing for an empty list, else one operation each.
    method WriteInstances(nsName: string, svcName: string, effs: seq<Effect>, what: string)
      returns (err: Option<Error>, ghost log: seq<Effect>)
      requires Coherent() && ':' !in svcName
      requires forall eff :: eff in effs && eff.Register? ==> Exportable(eff.e, api.setId, api.clusterId)
      modifies this`known, api, cache`defaultCache, cache`endpointsCache
      ensures Coherent() && OnlyWrote(nsName, svcName, log)
      ensures forall eff :: eff in log ==> eff in effs
      ensures err == None ==> forall eff :: eff in effs ==> eff in log
      ensures effs == [] ==> err == None
      ensures old(api.reported) <= api.reported && Says(err, api.reported[|old(api.reported)|..])
      ensures err.Some? ==> Complained() || (nsName, svcName) !in old(known)
    {
      err, log := None, [];
      if effs != [] {
        var svcId := GetServiceId(nsName, svcName);
        var lookup := if svcId.Err? then Some(svcId.error) else None;
        if lookup == None {
          // Evict cache entry so next list call reflects changes
          ghost var before, w := cache.endpointsCache, api.world;
          cache.EvictEndpoints(nsName, svcName);
          EntriesStay(before, cache.endpointsCache, w, w, api.moments, api.moments, api.setId, api.clusterId, api.latency, cache.endptTTL);
          err, log := AwaitAll(nsName, svcName, effs);
          WroteAfter(old(api.world), w, api.world, nsName, svcName, log, api.setId, api.clusterId);
        }
        SaysStill(|effs|, err, what, api.reported[|old(api.reported)|..]);
        err := Reports(|effs|, lookup, err, what);
      }
    }

    // The submitted operations and Await: they are applied, and end, in any order.
    method AwaitAll(nsName: string, svcName: string, effs: seq<Effect>) returns (err: Option<Error>, ghost log: seq<Effect>)
      requires Coherent() && EndptsKey(nsName, svcName) !in cache.endpointsCache && (nsName, svcName) in known
      requires forall eff :: eff in effs && eff.Register? ==> Exportable(eff.e, api.setId, api.clusterId)
      modifies api`now, api`world, api`failures, api`applied, api`reported
      ensures Coherent() && OnlyWrote(nsName, svcName, log)
      ensures Ended(err, log, multiset{}, effs, api.failures - old(api.failures))
      ensures old(api.reported) <= api.reported && Says(err, api.reported[|old(api.reported)|..])
    {
      err, log := None, [];
      ghost var start, applied, failures, reported := api.world, api.applied, api.failures, api.reported;
      var pending := multiset(effs);
      while pending != multiset{}
        invariant Coherent() && old(api.now) <= api.now && pending <= multiset(effs)
        invariant Writing(nsName, svcName, start, applied, failures, reported, err, log, pending, effs)
        decreases |pending|
      {
        var eff :| eff in pending;
        err, log := AwaitOne(nsName, svcName, eff, err, log, start, pending, effs, failures, applied, reported);
        pending := pending - multiset{eff};
      }
    }

    // What was applied and what failed since the registry was `start`, some operations being pending
    ghost predicate Writing(nsName: string, svcName: string, start: World, applied: seq<Operation>, failures: nat,
                            reported: seq<Error>, err: Option<Error>, log: seq<Effect>, pending: multiset<Effect>, effs: seq<Effect>)
      reads this, api
    {
      && api.applied == applied + Operations(nsName, svcName, log)
      && Wrote(start, api.world, nsName, svcName, log, api.setId, api.clusterId)
      && failures <= api.failures && Ended(err, log, pending, effs, api.failures - failures)
      && reported <= api.reported && Says(err, api.reported[|reported|..])
    }

    method AwaitOne(nsName: string, svcName: string, eff: Effect, err: Option<Error>, ghost log: seq<Effect>, ghost start: World,
                    ghost pending: multiset<Effect>, ghost effs: seq<Effect>, ghost failures: nat,
                    ghost applied: seq<Operation>, ghost reported: seq<Error>)
      returns (err': Option<Error>, ghost log': seq<Effect>)
      requires Coherent() && EndptsKey(nsName, svcName) !in cache.endpointsCache && (nsName, svcName) in known
      requires eff.Register? ==> Exportable(eff.e, api.setId, api.clusterId)
      requires eff in effs && Writing(nsName, svcName, start, applied, failures, reported, err, log, pending, effs)
      modifies api`now, api`world, api`failures, api`applied, api`reported
      ensures Coherent() && old(api.now) <= api.now
      ensures Writing(nsName, svcName, start, applied, failures, reported, err', log', pending - multiset{eff}, effs)
    {
      ghost var w, before := api.world, api.reported;
      var done, res := api.RunOperation(nsName, svcName, eff);
      EntriesBut(cache.endpointsCache, w, api.world, api.moments, nsName, svcName, if done then eff else NoEffect,
                 api.setId, api.clusterId, api.latency, cache.endptTTL);
      NamesStay(cache.defaultCache, cache.defaultCache, known, w, api.world);
      OwnKnownAfter(known, w, api.world, nsName, svcName, if done then eff else NoEffect, api.setId, api.clusterId);
      WroteMore(start, w, api.world, nsName, svcName, log, if done then eff else NoEffect, api.setId, api.clusterId);
      OperationsConcat(nsName, svcName, log, [eff]);
      log' := if done then log + [eff] else log;
      err' := if res.err != None then Wrap(err, res.err) else err;
      SaysMore(err, res.err, reported, before, api.reported);
      EndedMore(err, log, err', log', pending, effs, eff, old(api.failures) - failures, api.failures - failures);
    }

    // The log is what this client applied, in order. This cluster's part of the service changed by it, and its parts
    // of the others did not.
    twostate predicate OnlyWrote(nsName: string, svcName: string, log: seq<Effect>)
      reads this, api
    {
      && Wrote(old(api.world), api.world, nsName, svcName, log, api.setId, api.clusterId)
      && old(api.moments) <= api.moments && old(api.now) <= api.now && old(api.failures) <= api.failures && old(known) <= known
      && api.applied == old(api.applied) + Operations(nsName, svcName, log)
    }
  }

  // The error contains the texts of all these.
  ghost predicate Says(err: Option<Error>, reported: seq<Error>) {
    forall e :: e in reported ==> err.Some? && Contains(err.value.text, e.text)
  }

  lemma SaysMore(err: Option<Error>, last: Option<Error>, reported: seq<Error>, before: seq<Error>, after: seq<Error>)
    requires reported <= before && Says(err, before[|reported|..])
    requires after == before + if last != None then [last.value] else []
    ensures reported <= after && Says(if last != None then Wrap(err, last) else err, after[|reported|..])
  {
    WrapKeepsBoth(err, last);
    if last != None {
      ContainsSelf(last.value.text);
      assert after[|reported|..] == before[|reported|..] + [last.value];
    } else {
      assert after == before;
    }
  }

  lemma SaysStill(n: nat, err: Option<Error>, what: string, reported: seq<Error>)
    requires n > 0 && Says(err, reported)
    ensures Says(Reports(n, None, err, what), reported)
  {
    if err != None { ReportSaysAll(n, err, what); }
  }

  // Only given operations were applied; all that have ended were, unless some of them failed.
  ghost predicate Ended(err: Option<Error>, log: seq<Effect>, pending: multiset<Effect>, effs: seq<Effect>, failures: int) {
    && (forall eff :: eff in log ==> eff in effs)
    && (err == None ==> forall eff :: eff in effs && eff !in pending ==> eff in log)
    && (err.Some? ==> failures > 0)
  }

  lemma EndedMore(err: Option<Error>, log: seq<Effect>, err': Option<Error>, log': seq<Effect>,
                  pending: multiset<Effect>, effs: seq<Effect>, eff: Effect, failures: int, failures': int)
    requires Ended(err, log, pending, effs, failures) && eff in effs && failures <= failures'
    requires log' == log || log' == log + [eff]
    requires err' == None ==> err == None && log' == log + [eff]
    requires err'.Some? && err == None ==> failures' > failures >= 0
    requires err.Some? ==> failures > 0
    ensures Ended(err', log', pending - multiset{eff}, effs, failures')
  {
  }

  function Registrations(es: seq<Endpoint>): seq<Effect> {
    seq(|es|, i requires 0 <= i < |es| => Register(es[i]))
  }

  function Deregistrations(es: seq<Endpoint>): seq<Effect> {
    seq(|es|, i requires 0 <= i < |es| => Deregister(es[i].id))
  }

  lemma RegistrationsHave(es: seq<Endpoint>, e: Endpoint)
    requires e in es
    ensures Register(e) in Registrations(es)
  {
    var i :| 0 <= i < |es| && es[i] == e;
    assert Registrations(es)[i] == Register(e);
  }

  lemma DeregistrationsHave(es: seq<Endpoint>, e: Endpoint)
    requires e in es
    ensures Deregister(e.id) in Deregistrations(es)
  {
    var i :| 0 <= i < |es| && es[i] == e;
    assert Deregistrations(es)[i] == Deregister(e.id);
  }

  function ApplyAll(own: map<string, Endpoint>, log: seq<Effect>): map<string, Endpoint> {
    if log == [] then own else ApplyRead(ApplyAll(own, log[..|log| - 1]), log[|log| - 1])
  }

  ghost predicate Wrote(a: World, b: World, ns: string, svc: string, log: seq<Effect>, setId: string, clusterId: string) {
    && (forall n :: n in a ==> n in b)
    && (forall n, s :: Has(a, n, s) ==> Has(b, n, s))
    && (forall n, s :: (n, s) != (ns, svc) ==> OwnAt(b, n, s, setId, clusterId) == OwnAt(a, n, s, setId, clusterId))
    && OwnAt(b, ns, svc, setId, clusterId) == ApplyAll(OwnAt(a, ns, svc, setId, clusterId), log)
  }

  lemma WroteMore(a: World, b: World, c: World, ns: string, svc: string, log: seq<Effect>, eff: Effect, setId: string, clusterId: string)
    requires Wrote(a, b, ns, svc, log, setId, clusterId) && Does(b, c, ns, svc, eff, setId, clusterId)
    ensures Wrote(a, c, ns, svc, log + [eff], setId, clusterId)
    ensures eff == NoEffect ==> Wrote(a, c, ns, svc, log, setId, clusterId)
  {
    assert (log + [eff])[..|log|] == log;
  }

  lemma OwnKnownAfter(known: set<(string, string)>, a: World, b: World, ns: string, svc: string, eff: Effect, setId: string, clusterId: string)
    requires OwnKnown(known, a, setId, clusterId) && Does(a, b, ns, svc, eff, setId, clusterId) && (ns, svc) in known
    requires Exist(known, a)
    ensures OwnKnown(known, b, setId, clusterId) && Exist(known, b)
  {
  }

  lemma WroteAfter(a: World, b: World, c: World, ns: string, svc: string, log: seq<Effect>, setId: string, clusterId: string)
    requires Grows(a, b, setId, clusterId) && Wrote(b, c, ns, svc, log, setId, clusterId)
    ensures Wrote(a, c, ns, svc, log, setId, clusterId)
  {
  }

  function NamesOf(svcs: seq<Service>): set<string> {
    set s | s in svcs :: s.name
  }

  // What is listed and what is still to list are apart, and make up all the names unless an error stopped the loop.
  ghost predicate Partly(svcs: seq<Service>, err: Option<Error>, rest: set<string>, names: set<string>) {
    && rest !! NamesOf(svcs)
    && (err == None ==> rest + NamesOf(svcs) == names)
    && (err.Some? ==> !err.value.notFound)
  }

  // The list is every endpoint the service had at m, which is no earlier than `earliest`.
  ghost predicate ListedSince(m: Moment, endpts: seq<Endpoint>, nsName: string, svcName: string, setId: string, earliest: int) {
    Lists(endpts, Registry.Listed(InstancesAt(m.world, nsName, svcName), setId)) && earliest <= m.at
  }

  // The service exists, its endpoints are all those it had at a recent moment, and this cluster's are as they are now.
  ghost predicate ServiceRead(s: Service, nsName: string, w: World, moments: seq<Moment>, earliest: int, setId: string, clusterId: string) {
    && s.namespace_ == nsName && Has(w, nsName, s.name)
    && OwnOf(ById(s.endpoints), clusterId) == OwnAt(w, nsName, s.name, setId, clusterId)
    && exists m :: m in moments && ListedSince(m, s.endpoints, nsName, s.name, setId, earliest)
  }

  ghost predicate ServicesRead(svcs: seq<Service>, nsName: string, w: World, moments: seq<Moment>,
                               earliest: int, setId: string, clusterId: string) {
    && (forall i, j :: 0 <= i < j < |svcs| ==> svcs[i].name != svcs[j].name)
    && (forall s :: s in svcs ==> ServiceRead(s, nsName, w, moments, earliest, setId, clusterId))
  }

  lemma ServicesReadOn(svcs: seq<Service>, nsName: string, w: World, w': World, moments: seq<Moment>, moments': seq<Moment>,
                       earliest: int, setId: string, clusterId: string)
    requires ServicesRead(svcs, nsName, w, moments, earliest, setId, clusterId) && Grows(w, w', setId, clusterId) && moments <= moments'
    ensures ServicesRead(svcs, nsName, w', moments', earliest, setId, clusterId)
  {
    forall s | s in svcs ensures ServiceRead(s, nsName, w', moments', earliest, setId, clusterId) {
      assert ServiceRead(s, nsName, w, moments, earliest, setId, clusterId);
      var m :| m in moments && ListedSince(m, s.endpoints, nsName, s.name, setId, earliest);
      assert m in moments';
    }
  }

  lemma ServicesReadMore(svcs: seq<Service>, s: Service, nsName: string, w: World, moments: seq<Moment>, earliest: int,
                         setId: string, clusterId: string)
    requires ServicesRead(svcs, nsName, w, moments, earliest, setId, clusterId) && s.name !in NamesOf(svcs)
    requires ServiceRead(s, nsName, w, moments, earliest, setId, clusterId)
    ensures ServicesRead(svcs + [s], nsName, w, moments, earliest, setId, clusterId) && NamesOf(svcs + [s]) == NamesOf(svcs) + {s.name}
  {
    forall i | 0 <= i < |svcs| ensures svcs[i].name != s.name { assert svcs[i] in svcs; }
  }

  // A known service is in no cached list that would hide it: its namespace's list of services is evicted.
  lemma NamesWithout(c: map<string, Entry<Names>>, nsName: string, svcName: string, known: set<(string, string)>, w: World, w': World)
    requires NamesKnow(c, known) && NamesTrue(c, w)
    requires (forall ns :: ns in w ==> ns in w') && forall ns, svc :: Has(w, ns, svc) ==> Has(w', ns, svc)
    requires NamedIn(c, nsName)
    ensures var c' := c - {SvcKey(nsName)};
            NamesKnow(c', known + {(nsName, svcName)}) && NamesTrue(c', w')
  {
    SvcKeysDistinct(nsName, nsName);
  }
}
