// pkg/cloudmap/cache.go: the cached views of Cloud Map. The clock is a parameter of the lookups.
module Cache {
  import opened Common
  import opened Model

  // An entry of an LRUExpireCache. It is served until its expiry time has passed.
  datatype Entry<+V> = Entry(value: V, expires: nat)

  // What the default cache holds: namespace names, or the names of the services of one namespace.
  // A namespace or service is never deleted and made again here, so its name stands for its id.
  datatype Names = Namespaces(names: set<string>) | ServiceIds(names: set<string>)

  const NS_KEY := "ns-map"

  function SvcKey(nsName: string): string {
    "svc-map" + [':'] + nsName
  }

  function EndptsKey(nsName: string, svcName: string): string {
    nsName + [':'] + svcName
  }

  // Service names have no colon, so no two services share a key, whatever the namespaces are called.
  lemma EndptsKeysDistinct(ns1: string, svc1: string, ns2: string, svc2: string)
    requires ':' !in svc1 && ':' !in svc2
    ensures EndptsKey(ns1, svc1) == EndptsKey(ns2, svc2) <==> ns1 == ns2 && svc1 == svc2
  {
    if EndptsKey(ns1, svc1) == EndptsKey(ns2, svc2) {
      SplitAtMark(ns1, svc1, ns2, svc2, ':');
    }
  }

  lemma SvcKeysDistinct(ns1: string, ns2: string)
    ensures SvcKey(ns1) == SvcKey(ns2) <==> ns1 == ns2
    ensures SvcKey(ns1) != NS_KEY
  {
    assert |"svc-map" + [':']| == 8 && SvcKey(ns1)[8..] == ns1 && SvcKey(ns2)[8..] == ns2;
    assert SvcKey(ns1)[0] == 's' && NS_KEY[0] == 'n';
  }

  ghost predicate Within<V>(a: map<string, Entry<V>>, b: map<string, Entry<V>>) {
    forall key :: key in a ==> key in b && a[key] == b[key]
  }

  class SdCache {
    var defaultCache: map<string, Entry<Names>>
    var endpointsCache: map<string, Entry<seq<Endpoint>>>
    const nsTTL: nat
    const svcTTL: nat
    const endptTTL: nat

    constructor (nsTTL: nat, svcTTL: nat, endptTTL: nat)
      ensures this.nsTTL == nsTTL && this.svcTTL == svcTTL && this.endptTTL == endptTTL
      ensures defaultCache == map[] && endpointsCache == map[]
    {
      this.nsTTL, this.svcTTL, this.endptTTL := nsTTL, svcTTL, endptTTL;
      defaultCache, endpointsCache := map[], map[];
    }

    // LRUExpireCache.Get on the default cache
    method LookUp(key: string, now: nat) returns (entry: Option<Names>)
      modifies this`defaultCache
      ensures defaultCache == if entry.Some? then old(defaultCache) else old(defaultCache) - {key}
      ensures entry.Some? <==> key in old(defaultCache) && now <= old(defaultCache)[key].expires
      ensures entry.Some? ==> old(defaultCache)[key].value == entry.value
    {
      entry := None;
      if key in defaultCache {
        if now > defaultCache[key].expires {
          defaultCache := defaultCache - {key};
        } else {
          entry := Some(defaultCache[key].value);
        }
      }
    }

    // LRUExpireCache.Add: any other entries may have to go.
    method Store(key: string, names: Names, expires: nat)
      modifies this`defaultCache
      ensures key in defaultCache && defaultCache[key] == Entry(names, expires)
      ensures Within(defaultCache - {key}, old(defaultCache))
    {
      var kept: set<string> := *;
      defaultCache := (map k | k in defaultCache && k in kept :: defaultCache[k])[key := Entry(names, expires)];
    }

    method GetNamespaceMap(now: nat) returns (names: Option<set<string>>)
      modifies this`defaultCache
      ensures defaultCache == if names.Some? then old(defaultCache) else old(defaultCache) - {NS_KEY}
      ensures names.Some? <==> NS_KEY in old(defaultCache) && now <= old(defaultCache)[NS_KEY].expires
                               && old(defaultCache)[NS_KEY].value.Namespaces?
      ensures names.Some? ==> old(defaultCache)[NS_KEY].value.names == names.value
    {
      var entry := LookUp(NS_KEY, now);
      names := None;
      if entry.Some? {
        if entry.value.Namespaces? {
          names := Some(entry.value.names);
        } else {
          defaultCache := defaultCache - {NS_KEY};
        }
      }
    }

    method CacheNamespaceMap(names: set<string>, now: nat)
      modifies this`defaultCache
      ensures NS_KEY in defaultCache && defaultCache[NS_KEY] == Entry(Namespaces(names), now + nsTTL)
      ensures Within(defaultCache - {NS_KEY}, old(defaultCache))
    {
      Store(NS_KEY, Namespaces(names), now + nsTTL);
    }

    method EvictNamespaceMap()
      modifies this`defaultCache
      ensures defaultCache == old(defaultCache) - {NS_KEY}
    {
      defaultCache := defaultCache - {NS_KEY};
    }

    method GetServiceIdMap(nsName: string, now: nat) returns (names: Option<set<string>>)
      modifies this`defaultCache
      ensures defaultCache == if names.Some? then old(defaultCache) else old(defaultCache) - {SvcKey(nsName)}
      ensures names.Some? <==> SvcKey(nsName) in old(defaultCache) && now <= old(defaultCache)[SvcKey(nsName)].expires
                               && old(defaultCache)[SvcKey(nsName)].value.ServiceIds?
      ensures names.Some? ==> old(defaultCache)[SvcKey(nsName)].value.names == names.value
    {
      var entry := LookUp(SvcKey(nsName), now);
      names := None;
      if entry.Some? {
        if entry.value.ServiceIds? {
          names := Some(entry.value.names);
        } else {
          defaultCache := defaultCache - {SvcKey(nsName)};
        }
      }
    }

    method CacheServiceIdMap(nsName: string, names: set<string>, now: nat)
      modifies this`defaultCache
      ensures SvcKey(nsName) in defaultCache && defaultCache[SvcKey(nsName)] == Entry(ServiceIds(names), now + svcTTL)
      ensures Within(defaultCache - {SvcKey(nsName)}, old(defaultCache))
    {
      Store(SvcKey(nsName), ServiceIds(names), now + svcTTL);
    }

    method EvictServiceIdMap(nsName: string)
      modifies this`defaultCache
      ensures defaultCache == old(defaultCache) - {SvcKey(nsName)}
    {
      defaultCache := defaultCache - {SvcKey(nsName)};
    }

    method GetEndpoints(nsName: string, svcName: string, now: nat) returns (endpts: Option<seq<Endpoint>>)
      modifies this`endpointsCache
      ensures var key := EndptsKey(nsName, svcName);
              && endpointsCache == (if endpts.Some? then old(endpointsCache) else old(endpointsCache) - {key})
              && (endpts.Some? <==> key in old(endpointsCache) && now <= old(endpointsCache)[key].expires)
              && (endpts.Some? ==> endpts.value == old(endpointsCache)[key].value)
    {
      var key := EndptsKey(nsName, svcName);
      endpts := None;
      if key in endpointsCache {
        if now > endpointsCache[key].expires {
          endpointsCache := endpointsCache - {key};
        } else {
          endpts := Some(endpointsCache[key].value);
        }
      }
    }

    method CacheEndpoints(nsName: string, svcName: string, endpts: seq<Endpoint>, now: nat)
      modifies this`endpointsCache
      ensures EndptsKey(nsName, svcName) in endpointsCache
      ensures endpointsCache[EndptsKey(nsName, svcName)] == Entry(endpts, now + endptTTL)
      ensures Within(endpointsCache - {EndptsKey(nsName, svcName)}, old(endpointsCache))
    {
      var kept: set<string> := *;
      endpointsCache := (map k | k in endpointsCache && k in kept :: endpointsCache[k])
                        [EndptsKey(nsName, svcName) := Entry(endpts, now + endptTTL)];
    }

    method EvictEndpoints(nsName: string, svcName: string)
      modifies this`endpointsCache
      ensures endpointsCache == old(endpointsCache) - {EndptsKey(nsName, svcName)}
    {
      endpointsCache := endpointsCache - {EndptsKey(nsName, svcName)};
    }
  }
}
