// What every plan CalculateChanges can return satisfies, for every order of ranging over its map.
module SliceTheorems {
  import opened Common
  import opened Model
  import opened Ports
  import opened SliceSpec
  import opened SliceInvariant
  import opened SliceRounds

  // ---- Exactness ----

  // Nothing left to do: every desired IP is held once and nothing else is, no slice is empty,
  // and every slice has the desired ports.
  ghost predicate Settled(cfg: Config, vs: seq<SliceVal>) {
    && (forall ip :: Times(vs, ip) == if ip in cfg.want then 1 else 0)
    && (forall v :: v in vs ==> v.endpoints != [] && PortsMatch(cfg, v))
  }

  lemma PlanIsExact(cfg: Config, cur: seq<SliceVal>, chunks: seq<seq<string>>)
    requires ValidConfig(cfg) && IsPlan(cfg, cur, chunks)
    ensures Settled(cfg, Survivors(Run(cfg, cur, chunks)))
  {
    var st := Run(cfg, cur, chunks);
    RunSound(cfg, cur, chunks);
    forall ip ensures Times(Survivors(st), ip) == if ip in cfg.want then 1 else 0 {
      assert BalancedAt(cfg, st, ip);
      TimesSurvivors(st, ip);
    }
    forall v | v in Survivors(st) ensures v.endpoints != [] && PortsMatch(cfg, v) {
      SurvivorIsGood(cfg, cur, st, v);
    }
  }

  lemma SurvivorIsGood(cfg: Config, cur: seq<SliceVal>, st: PlanState, v: SliceVal)
    requires Sound(cfg, cur, st) && v in Survivors(st)
    ensures v.endpoints != [] && PortsMatch(cfg, v)
  {
    if v in Slices(st.update) {
      var i :| 0 <= i < |st.update| && st.update[i].slice == v;
      assert GoodUpdate(cfg, cur, st.update[i]);
    } else if v in Slices(st.unmodified) {
      var i :| 0 <= i < |st.unmodified| && st.unmodified[i].slice == v;
      assert GoodUnmodified(cfg, cur, st.unmodified[i]);
    } else {
      assert GoodCreate(cfg, v);
    }
  }

  // ---- Fixed point ----

  ghost predicate NoChange(st: PlanState) {
    st.update == [] && st.delete == [] && st.create == []
  }

  // Planning changes nothing exactly when there is nothing left to do.
  lemma NoChangeIffSettled(cfg: Config, cur: seq<SliceVal>, chunks: seq<seq<string>>)
    requires ValidConfig(cfg) && IsPlan(cfg, cur, chunks)
    ensures NoChange(Run(cfg, cur, chunks)) <==> Settled(cfg, cur)
    ensures Settled(cfg, cur) ==> Slices(Run(cfg, cur, chunks).unmodified) == cur
  {
    if NoChange(Run(cfg, cur, chunks)) { IdleThenSettled(cfg, cur, chunks); }
    if Settled(cfg, cur) { SettledThenIdle(cfg, cur, chunks); }
  }

  lemma IdleThenSettled(cfg: Config, cur: seq<SliceVal>, chunks: seq<seq<string>>)
    requires ValidConfig(cfg) && IsPlan(cfg, cur, chunks) && NoChange(Run(cfg, cur, chunks))
    ensures Settled(cfg, cur)
  {
    if chunks != [] {
      StepChangesSomething(cfg, Run(cfg, cur, chunks[..|chunks| - 1]), chunks[|chunks| - 1]);
    }
    TrimKeepsOrder(cfg, cur);
    PlanIsExact(cfg, cur, chunks);
    assert Survivors(Run(cfg, cur, chunks)) == cur;
  }

  lemma SettledThenIdle(cfg: Config, cur: seq<SliceVal>, chunks: seq<seq<string>>)
    requires IsPlan(cfg, cur, chunks) && Settled(cfg, cur)
    ensures NoChange(Run(cfg, cur, chunks)) && Slices(Run(cfg, cur, chunks).unmodified) == cur
  {
    SettledTrim(cfg, cur, |cur|);
    assert cur[..|cur|] == cur;
    SettledTodo(cfg, cur);
    if chunks != [] { FirstRound(cfg, cur, chunks); }
    TrimKeepsOrder(cfg, cur);
    TrimTodo(cfg, cur);
  }

  lemma StepChangesSomething(cfg: Config, st: PlanState, chunk: seq<string>)
    requires IsChunk(cfg, st, chunk)
    ensures Step(cfg, st, chunk).update != [] || Step(cfg, st, chunk).create != []
  {
  }

  // A run that took a round took its first one right after trimming.
  lemma {:induction false} FirstRound(cfg: Config, cur: seq<SliceVal>, chunks: seq<seq<string>>)
    requires IsRun(cfg, cur, chunks) && chunks != []
    ensures Trim(cfg, cur).todo != {}
  {
    if |chunks| > 1 {
      FirstRound(cfg, cur, chunks[..|chunks| - 1]);
    } else {
      assert chunks[..0] == [];
    }
  }

  lemma {:induction false} TrimKeepsOrder(cfg: Config, cur: seq<SliceVal>)
    ensures KeepsOrder(Trim(cfg, cur), cur)
  {
    if cur != [] {
      var n := |cur| - 1;
      TrimKeepsOrder(cfg, cur[..n]);
      assert cur == cur[..n] + [cur[n]];
      TrimOneKeepsOrder(cfg, Trim(cfg, cur[..n]), cur[..n], cur[n]);
      assert Trim(cfg, cur) == TrimOne(cfg, Trim(cfg, cur[..n]), n, cur[n]);
    }
  }

  // If no slice was updated or deleted, the unmodified ones are all of them.
  ghost predicate KeepsOrder(st: PlanState, cur: seq<SliceVal>) {
    st.update == [] && st.delete == [] ==> Slices(st.unmodified) == cur
  }

  lemma TrimOneKeepsOrder(cfg: Config, st: PlanState, cur: seq<SliceVal>, v: SliceVal)
    requires KeepsOrder(st, cur)
    ensures KeepsOrder(TrimOne(cfg, st, |cur|, v), cur + [v])
  {
  }

  lemma {:induction false} SettledTrim(cfg: Config, cur: seq<SliceVal>, n: nat)
    requires Settled(cfg, cur) && n <= |cur|
    ensures Trim(cfg, cur[..n]).update == [] && Trim(cfg, cur[..n]).delete == []
  {
    if n > 0 {
      SettledTrim(cfg, cur, n - 1);
      assert cur[..n][..n - 1] == cur[..n - 1];
      TrimTodo(cfg, cur[..n - 1]);
      var es, todo := cur[n - 1].endpoints, Trim(cfg, cur[..n - 1]).todo;
      forall e | e in es ensures e.address in todo && Occurrences(es, e.address) <= 1 {
        OnceOverall(cfg, cur, n - 1, e);
      }
      KeptWhole(es, todo);
      assert cur[n - 1] in cur;
    }
  }

  // In a settled list, an address of slice n is wanted, occurs there once and in no earlier slice.
  lemma OnceOverall(cfg: Config, cur: seq<SliceVal>, n: nat, e: SliceEndpoint)
    requires Settled(cfg, cur) && n < |cur| && e in cur[n].endpoints
    ensures e.address in cfg.want && Occurrences(cur[n].endpoints, e.address) == 1
    ensures e.address !in AllAddresses(cur[..n])
  {
    assert cur == cur[..n] + [cur[n]] + cur[n + 1..];
    TimesAround(cur[..n], cur[n], cur[n + 1..], e.address);
    OccursWhenIn(cur[n].endpoints, e);
    if e.address in AllAddresses(cur[..n]) {
      TimesWhenIn(cur[..n], e.address);
    }
  }

  lemma {:induction false} OccursWhenIn(es: seq<SliceEndpoint>, e: SliceEndpoint)
    requires e in es
    ensures Occurrences(es, e.address) > 0
  {
    if es[|es| - 1] != e {
      assert es == es[..|es| - 1] + [es[|es| - 1]];
      OccursWhenIn(es[..|es| - 1], e);
    }
  }

  lemma {:induction false} TimesWhenIn(vs: seq<SliceVal>, ip: string)
    requires ip in AllAddresses(vs)
    ensures Times(vs, ip) > 0
  {
    AllAddressesSnoc(vs);
    if ip in AddressSet(vs[|vs| - 1].endpoints) {
      var e :| e in vs[|vs| - 1].endpoints && e.address == ip;
      OccursWhenIn(vs[|vs| - 1].endpoints, e);
    } else {
      TimesWhenIn(vs[..|vs| - 1], ip);
    }
  }

  lemma {:induction false} InWhenTimes(vs: seq<SliceVal>, ip: string) returns (v: SliceVal, e: SliceEndpoint)
    requires Times(vs, ip) > 0
    ensures v in vs && e in v.endpoints && e.address == ip
  {
    if Occurrences(vs[|vs| - 1].endpoints, ip) > 0 {
      v := vs[|vs| - 1];
      e := InWhenOccurs(v.endpoints, ip);
    } else {
      v, e := InWhenTimes(vs[..|vs| - 1], ip);
    }
  }

  lemma {:induction false} KeptWhole(es: seq<SliceEndpoint>, wanted: set<string>)
    requires forall e :: e in es ==> e.address in wanted && Occurrences(es, e.address) <= 1
    ensures Kept(es, wanted) == es
  {
    if es != [] {
      var init, last := es[..|es| - 1], es[|es| - 1];
      assert es == init + [last] && last in es;
      if last.address in AddressSet(init) {
        var e :| e in init && e.address == last.address;
        OccursWhenIn(init, e);
      }
      KeptWhole(init, wanted);
    }
  }

  lemma SettledTodo(cfg: Config, cur: seq<SliceVal>)
    requires Settled(cfg, cur)
    ensures Trim(cfg, cur).todo == {}
  {
    TrimTodo(cfg, cur);
    forall ip | ip in cfg.want ensures ip in AllAddresses(cur) {
      var v, e := InWhenTimes(cur, ip);
    }
  }

  // Two configurations that want the same: same desired endpoints, same desired port ids in any order.
  ghost predicate SameGoal(a: Config, b: Config) {
    a.want == b.want && a.max == b.max && a.service == b.service && multiset(PortIds(a.ports)) == multiset(PortIds(b.ports))
  }

  // Apply the changes, plan again with the same desired endpoints: nothing changes, whatever the map orders were.
  lemma ReplanningIsIdle(cfg: Config, cfg': Config, cur: seq<SliceVal>, chunks: seq<seq<string>>,
                         applied: seq<SliceVal>, chunks': seq<seq<string>>)
    requires ValidConfig(cfg) && SameGoal(cfg, cfg') && IsPlan(cfg, cur, chunks)
    requires multiset(applied) == multiset(Survivors(Run(cfg, cur, chunks)))
    requires IsPlan(cfg', applied, chunks')
    ensures NoChange(Run(cfg', applied, chunks')) && Slices(Run(cfg', applied, chunks').unmodified) == applied
  {
    PlanIsExact(cfg, cur, chunks);
    SettledPermuted(cfg, cfg', Survivors(Run(cfg, cur, chunks)), applied);
    SettledThenIdle(cfg', applied, chunks');
  }

  lemma SettledPermuted(cfg: Config, cfg': Config, a: seq<SliceVal>, b: seq<SliceVal>)
    requires SameGoal(cfg, cfg') && multiset(a) == multiset(b) && Settled(cfg, a)
    ensures Settled(cfg', b)
  {
    forall ip ensures Times(a, ip) == Times(b, ip) { TimesPermuted(a, b, ip); }
    forall v | v in b ensures v in a { assert v in multiset(b); }
  }

  lemma Cancel<T>(a: multiset<T>, b: multiset<T>, c: multiset<T>)
    requires a + c == b + c
    ensures a == b
  {
    assert a == (a + c) - c && b == (b + c) - c;
  }

  lemma {:induction false} TimesPermuted(a: seq<SliceVal>, b: seq<SliceVal>, ip: string)
    requires multiset(a) == multiset(b)
    ensures Times(a, ip) == Times(b, ip)
  {
    if a == [] {
      assert multiset(b) == multiset{};
      assert b == [];
    } else {
      var init, last := a[..|a| - 1], a[|a| - 1];
      assert a == init + [last];
      assert last in multiset(b);
      var k :| 0 <= k < |b| && b[k] == last;
      assert b == b[..k] + [last] + b[k + 1..];
      Cancel(multiset(init), multiset(b[..k] + b[k + 1..]), multiset{last});
      TimesPermuted(init, b[..k] + b[k + 1..], ip);
      TimesAround(b[..k], last, b[k + 1..], ip);
      TimesConcat(b[..k], b[k + 1..], ip);
    }
  }

  // ---- Ports ----

  // The pair is served: some slice lists the address and a port with that id.
  ghost predicate Serves(vs: seq<SliceVal>, ip: string, id: string) {
    exists v, e, p :: v in vs && e in v.endpoints && e.address == ip && p in v.ports && EndpointPortToPort(p).GetID() == id
  }

  ghost predicate Desires(desired: seq<Endpoint>, ip: string, id: string) {
    exists e :: e in desired && e.ip == ip && e.endpointPort.GetID() == id
  }

  ghost predicate ConfigFor(cfg: Config, desired: seq<Endpoint>) {
    ValidConfig(cfg) && cfg.want == DesiredByIp(desired) && Lists(cfg.ports, UniquePorts(EndpointPorts(desired)))
  }

  // A plan serves every desired address on every desired port.
  lemma PlanServesProduct(cfg: Config, cur: seq<SliceVal>, chunks: seq<seq<string>>, ip: string, id: string)
    requires ValidConfig(cfg) && IsPlan(cfg, cur, chunks)
    ensures Serves(Survivors(Run(cfg, cur, chunks)), ip, id) <==> ip in cfg.want && id in PortIds(cfg.ports)
  {
    var vs := Survivors(Run(cfg, cur, chunks));
    PlanIsExact(cfg, cur, chunks);
    if Serves(vs, ip, id) {
      var v, e, p :| v in vs && e in v.endpoints && e.address == ip && p in v.ports && EndpointPortToPort(p).GetID() == id;
      assert ip in AllAddresses(vs);
      TimesWhenIn(vs, ip);
      MatchedPortIds(cfg, v, id);
    }
    if ip in cfg.want && id in PortIds(cfg.ports) {
      var v, e := InWhenTimes(vs, ip);
      MatchedPortIds(cfg, v, id);
    }
  }

  lemma MatchedPortIds(cfg: Config, v: SliceVal, id: string)
    requires PortsMatch(cfg, v)
    ensures id in PortIds(cfg.ports) <==> exists p :: p in v.ports && EndpointPortToPort(p).GetID() == id
  {
    var ids := PortIds(ToPorts(v.ports));
    assert id in PortIds(cfg.ports) <==> id in multiset(ids);
    if id in ids {
      var i :| 0 <= i < |ids| && ids[i] == id;
      assert v.ports[i] in v.ports;
    }
    if p :| p in v.ports && EndpointPortToPort(p).GetID() == id {
      var i :| 0 <= i < |v.ports| && v.ports[i] == p;
      assert ids[i] == id;
    }
  }

  // Every desired pair is served; nothing more is served exactly when every desired address exposes every desired port.
  lemma ServedPairs(cfg: Config, desired: seq<Endpoint>, cur: seq<SliceVal>, chunks: seq<seq<string>>)
    requires ConfigFor(cfg, desired) && IsPlan(cfg, cur, chunks)
    ensures var vs := Survivors(Run(cfg, cur, chunks));
            && (forall ip, id :: Desires(desired, ip, id) ==> Serves(vs, ip, id))
            && ((forall ip, id :: Serves(vs, ip, id) ==> Desires(desired, ip, id))
                <==> EveryAddressOnEveryPort(desired))
  {
    forall ip, id ensures Serves(Survivors(Run(cfg, cur, chunks)), ip, id) <==> Crosses(desired, ip, id) {
      PlanServesProduct(cfg, cur, chunks, ip, id);
      DesiredPortIds(cfg, desired, id);
    }
    PairsOfCrossing(Survivors(Run(cfg, cur, chunks)), desired);
  }

  ghost predicate EveryAddressOnEveryPort(desired: seq<Endpoint>) {
    forall e, f {:trigger Desires(desired, e.ip, f.endpointPort.GetID())} ::
      e in desired && f in desired ==> Desires(desired, e.ip, f.endpointPort.GetID())
  }

  // Some desired endpoint has the address and some, maybe another one, the port.
  ghost predicate Crosses(desired: seq<Endpoint>, ip: string, id: string) {
    exists e, f :: e in desired && f in desired && e.ip == ip && f.endpointPort.GetID() == id
  }

  lemma PairsOfCrossing(vs: seq<SliceVal>, desired: seq<Endpoint>)
    requires forall ip, id :: Serves(vs, ip, id) <==> Crosses(desired, ip, id)
    ensures forall ip, id :: Desires(desired, ip, id) ==> Serves(vs, ip, id)
    ensures (forall ip, id :: Serves(vs, ip, id) ==> Desires(desired, ip, id))
            <==> EveryAddressOnEveryPort(desired)
  {
    forall e, f | e in desired && f in desired ensures Serves(vs, e.ip, f.endpointPort.GetID()) {
      assert Crosses(desired, e.ip, f.endpointPort.GetID());
    }
  }

  lemma DesiredPortIds(cfg: Config, desired: seq<Endpoint>, id: string)
    requires ConfigFor(cfg, desired)
    ensures id in PortIds(cfg.ports) <==> exists f :: f in desired && f.endpointPort.GetID() == id
  {
    var ids := PortIds(EndpointPorts(desired));
    assert id in PortIds(cfg.ports) <==> id in multiset(UniquePorts(EndpointPorts(desired)).Keys);
    if id in ids {
      var i :| 0 <= i < |ids| && ids[i] == id;
      assert desired[i] in desired;
    }
    if f :| f in desired && f.endpointPort.GetID() == id {
      var i :| 0 <= i < |desired| && desired[i] == f;
      assert ids[i] == id;
    }
  }
}
