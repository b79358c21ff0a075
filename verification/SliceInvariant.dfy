// The invariant of the planner: what trimming establishes and every round of the fill loop keeps.
module SliceInvariant {
  import opened Common
  import opened Model
  import opened Ports
  import opened SliceSpec

  function Slices(ts: seq<Tracked>): seq<SliceVal> {
    seq(|ts|, i requires 0 <= i < |ts| => ts[i].slice)
  }

  // How many records have this first address.
  function Occurrences(es: seq<SliceEndpoint>, ip: string): nat {
    if es == [] then 0
    else Occurrences(es[..|es| - 1], ip) + if es[|es| - 1].address == ip then 1 else 0
  }

  function Times(vs: seq<SliceVal>, ip: string): nat {
    if vs == [] then 0 else Times(vs[..|vs| - 1], ip) + Occurrences(vs[|vs| - 1].endpoints, ip)
  }

  // How often old slice o is listed.
  function Listed(ts: seq<Tracked>, o: nat): nat {
    if ts == [] then 0 else Listed(ts[..|ts| - 1], o) + if ts[|ts| - 1].origin == o then 1 else 0
  }

  function AllAddresses(vs: seq<SliceVal>): set<string> {
    set v, e | v in vs && e in v.endpoints :: e.address
  }

  // The slices that remain when the changes are applied: everything but Delete.
  function Survivors(st: PlanState): seq<SliceVal> {
    Slices(st.update) + st.create + Slices(st.unmodified)
  }

  // The records slice o keeps: it may claim the desired IPs no earlier slice has.
  function KeptAt(cfg: Config, cur: seq<SliceVal>, o: nat): seq<SliceEndpoint>
    requires o < |cur|
  {
    Kept(cur[o].endpoints, cfg.want.Keys - AllAddresses(cur[..o]))
  }

  // e is what CreateEndpointForSlice makes of a desired endpoint
  ghost predicate IsRecord(cfg: Config, e: SliceEndpoint) {
    e.address in cfg.want && e == CreateEndpointForSlice(cfg.service, cfg.want[e.address])
  }

  ghost predicate GoodUnmodified(cfg: Config, cur: seq<SliceVal>, t: Tracked) {
    && t.origin < |cur| && t.slice == cur[t.origin] && t.slice.endpoints != []
    && PortsMatch(cfg, t.slice) && t.slice.endpoints == KeptAt(cfg, cur, t.origin)
  }

  ghost predicate GoodDelete(cfg: Config, cur: seq<SliceVal>, t: Tracked) {
    t.origin < |cur| && t.slice == cur[t.origin] && KeptAt(cfg, cur, t.origin) == []
  }

  // An updated slice still starts with what it kept; whatever follows is fresh, and its contents did change.
  ghost predicate GoodUpdate(cfg: Config, cur: seq<SliceVal>, t: Tracked) {
    && t.origin < |cur| && t.slice.endpoints != [] && PortsMatch(cfg, t.slice)
    && var kept := KeptAt(cfg, cur, t.origin); var es := t.slice.endpoints;
    && kept <= es
    && (|es| <= cfg.max || es == kept)
    && (forall i :: |kept| <= i < |es| ==> IsRecord(cfg, es[i]) && es[i].address !in AllAddresses(cur))
    && (es == kept ==> t.slice != cur[t.origin])
  }

  ghost predicate GoodCreate(cfg: Config, v: SliceVal) {
    && 0 < |v.endpoints| <= cfg.max && PortsMatch(cfg, v)
    && forall e :: e in v.endpoints ==> IsRecord(cfg, e)
  }

  // A desired IP that is not waiting any more is held once by the surviving slices; nothing else is held.
  ghost predicate BalancedAt(cfg: Config, st: PlanState, ip: string) {
    Times(Slices(st.update), ip) + Times(st.create, ip) + Times(Slices(st.unmodified), ip)
    == if ip in cfg.want && ip !in st.todo then 1 else 0
  }

  // Each of the n old slices is in exactly one of Update, Delete and Unmodified.
  ghost predicate PartitionedAt(n: nat, st: PlanState, o: nat) {
    Listed(st.update, o) + Listed(st.delete, o) + Listed(st.unmodified, o) == if o < n then 1 else 0
  }

  ghost predicate Balanced(cfg: Config, st: PlanState) {
    && (forall ip :: BalancedAt(cfg, st, ip))
    && (forall ip :: ip in st.todo ==> ip in cfg.want)
  }

  ghost predicate Partitioned(n: nat, st: PlanState) {
    forall o: nat :: PartitionedAt(n, st, o)
  }

  ghost predicate CreatedInOrder(cfg: Config, st: PlanState) {
    && (st.create != [] ==> st.delete == [])
    && (forall i :: 0 <= i < |st.create| - 1 ==> |st.create[i].endpoints| == cfg.max)
    && (st.create != [] && st.todo != {} ==> |st.create[|st.create| - 1].endpoints| == cfg.max)
  }

  ghost predicate Sound(cfg: Config, cur: seq<SliceVal>, st: PlanState) {
    && Balanced(cfg, st)
    && Partitioned(|cur|, st)
    && (forall ip :: ip in st.todo ==> ip in cfg.want && ip !in AllAddresses(cur))
    && (forall t :: t in st.unmodified ==> GoodUnmodified(cfg, cur, t))
    && (forall t :: t in st.delete ==> GoodDelete(cfg, cur, t))
    && (forall t :: t in st.update ==> GoodUpdate(cfg, cur, t))
    && (forall v :: v in st.create ==> GoodCreate(cfg, v))
    && CreatedInOrder(cfg, st)
  }

  // ---- Counting ----

  lemma {:induction false} OccurrencesConcat(a: seq<SliceEndpoint>, b: seq<SliceEndpoint>, ip: string)
    ensures Occurrences(a + b, ip) == Occurrences(a, ip) + Occurrences(b, ip)
  {
    if b == [] {
      assert a + b == a;
    } else {
      assert (a + b)[..|a + b| - 1] == a + b[..|b| - 1];
      OccurrencesConcat(a, b[..|b| - 1], ip);
    }
  }

  lemma {:induction false} InWhenOccurs(es: seq<SliceEndpoint>, ip: string) returns (e: SliceEndpoint)
    requires Occurrences(es, ip) > 0
    ensures e in es && e.address == ip
  {
    if es[|es| - 1].address == ip {
      e := es[|es| - 1];
    } else {
      e := InWhenOccurs(es[..|es| - 1], ip);
    }
  }

  lemma {:induction false} TimesConcat(a: seq<SliceVal>, b: seq<SliceVal>, ip: string)
    ensures Times(a + b, ip) == Times(a, ip) + Times(b, ip)
  {
    if b == [] {
      assert a + b == a;
    } else {
      assert (a + b)[..|a + b| - 1] == a + b[..|b| - 1];
      TimesConcat(a, b[..|b| - 1], ip);
    }
  }

  lemma TimesAround(a: seq<SliceVal>, v: SliceVal, b: seq<SliceVal>, ip: string)
    ensures Times(a + [v] + b, ip) == Times(a, ip) + Occurrences(v.endpoints, ip) + Times(b, ip)
  {
    TimesConcat(a + [v], b, ip);
    assert (a + [v])[..|a|] == a;
  }

  lemma TimesPut(vs: seq<SliceVal>, i: nat, v: SliceVal, ip: string)
    requires i < |vs|
    ensures Times(vs[i := v], ip) + Occurrences(vs[i].endpoints, ip) == Times(vs, ip) + Occurrences(v.endpoints, ip)
  {
    var a, b := vs[..i], vs[i + 1..];
    assert vs == a + [vs[i]] + b && vs[i := v] == a + [v] + b;
    TimesAround(a, vs[i], b, ip);
    TimesAround(a, v, b, ip);
  }

  lemma {:induction false} ListedConcat(a: seq<Tracked>, b: seq<Tracked>, o: nat)
    ensures Listed(a + b, o) == Listed(a, o) + Listed(b, o)
  {
    if b == [] {
      assert a + b == a;
    } else {
      assert (a + b)[..|a + b| - 1] == a + b[..|b| - 1];
      ListedConcat(a, b[..|b| - 1], o);
    }
  }

  lemma TimesSurvivors(st: PlanState, ip: string)
    ensures Times(Survivors(st), ip)
         == Times(Slices(st.update), ip) + Times(st.create, ip) + Times(Slices(st.unmodified), ip)
  {
    TimesConcat(Slices(st.update) + st.create, Slices(st.unmodified), ip);
    TimesConcat(Slices(st.update), st.create, ip);
  }

  lemma AppendTimes(ts: seq<Tracked>, t: Tracked, ip: string)
    ensures Times(Slices(ts + [t]), ip) == Times(Slices(ts), ip) + Occurrences(t.slice.endpoints, ip)
  {
    assert Slices(ts + [t]) == Slices(ts) + [t.slice] + [];
    TimesAround(Slices(ts), t.slice, [], ip);
  }

  lemma AppendListed(ts: seq<Tracked>, t: Tracked, o: nat)
    ensures Listed(ts + [t], o) == Listed(ts, o) + if t.origin == o then 1 else 0
  {
    assert (ts + [t])[..|ts|] == ts;
  }

  lemma TakeOutTimes(ts: seq<Tracked>, k: nat, ip: string)
    requires k < |ts|
    ensures Times(Slices(ts), ip) == Times(Slices(ts[..k] + ts[k + 1..]), ip) + Occurrences(ts[k].slice.endpoints, ip)
  {
    var a, b := Slices(ts[..k]), Slices(ts[k + 1..]);
    assert Slices(ts) == a + [ts[k].slice] + b;
    assert Slices(ts[..k] + ts[k + 1..]) == a + b;
    TimesAround(a, ts[k].slice, b, ip);
    TimesConcat(a, b, ip);
  }

  lemma TakeOutListed(ts: seq<Tracked>, k: nat, o: nat)
    requires k < |ts|
    ensures Listed(ts, o) == Listed(ts[..k] + ts[k + 1..], o) + if ts[k].origin == o then 1 else 0
  {
    var a, b := ts[..k], ts[k + 1..];
    assert ts == a + [ts[k]] + b;
    ListedConcat(a + [ts[k]], b, o);
    AppendListed(a, ts[k], o);
    ListedConcat(a, b, o);
  }

  // ---- Trimming ----

  lemma AddressSetSnoc(es: seq<SliceEndpoint>)
    requires es != []
    ensures AddressSet(es) == AddressSet(es[..|es| - 1]) + {es[|es| - 1].address}
  {
    assert es == es[..|es| - 1] + [es[|es| - 1]];
  }

  // A slice keeps exactly its wanted addresses, each once.
  lemma {:induction false} KeptHolds(es: seq<SliceEndpoint>, wanted: set<string>, ip: string)
    ensures Occurrences(Kept(es, wanted), ip) == if ip in wanted && ip in AddressSet(es) then 1 else 0
  {
    if es != [] {
      var init, last := es[..|es| - 1], es[|es| - 1];
      KeptHolds(init, wanted, ip);
      AddressSetSnoc(es);
      assert (Kept(init, wanted) + [last])[..|Kept(init, wanted)|] == Kept(init, wanted);
    }
  }

  lemma {:induction false} KeptAll(es: seq<SliceEndpoint>, wanted: set<string>)
    ensures |Kept(es, wanted)| <= |es|
    ensures |Kept(es, wanted)| == |es| ==> Kept(es, wanted) == es
  {
    if es != [] {
      KeptAll(es[..|es| - 1], wanted);
      assert es == es[..|es| - 1] + [es[|es| - 1]];
    }
  }

  lemma AllAddressesSnoc(cur: seq<SliceVal>)
    requires cur != []
    ensures AllAddresses(cur) == AllAddresses(cur[..|cur| - 1]) + AddressSet(cur[|cur| - 1].endpoints)
  {
    assert cur == cur[..|cur| - 1] + [cur[|cur| - 1]];
  }

  lemma {:induction false} TrimTodo(cfg: Config, cur: seq<SliceVal>)
    ensures Trim(cfg, cur).todo == cfg.want.Keys - AllAddresses(cur)
    ensures Trim(cfg, cur).create == []
  {
    if cur != [] {
      TrimTodo(cfg, cur[..|cur| - 1]);
      AllAddressesSnoc(cur);
    }
  }

  lemma {:induction false} TrimBalanced(cfg: Config, cur: seq<SliceVal>)
    ensures Balanced(cfg, Trim(cfg, cur))
  {
    if cur == [] {
      assert Slices([]) == [];
    } else {
      TrimBalanced(cfg, cur[..|cur| - 1]);
      forall ip ensures BalancedAt(cfg, Trim(cfg, cur), ip) {
        TrimOneBalanced(cfg, Trim(cfg, cur[..|cur| - 1]), |cur| - 1, cur[|cur| - 1], ip);
      }
    }
  }

  lemma {:induction false} TrimPartitioned(cfg: Config, cur: seq<SliceVal>, o: nat)
    ensures PartitionedAt(|cur|, Trim(cfg, cur), o)
  {
    if cur != [] {
      TrimPartitioned(cfg, cur[..|cur| - 1], o);
      TrimOnePartitioned(cfg, Trim(cfg, cur[..|cur| - 1]), |cur| - 1, cur[|cur| - 1], o);
    }
  }

  lemma TrimOnePartitioned(cfg: Config, st: PlanState, n: nat, v: SliceVal, o: nat)
    requires PartitionedAt(n, st, o)
    ensures PartitionedAt(n + 1, TrimOne(cfg, st, n, v), o)
  {
    var kept := Kept(v.endpoints, st.todo);
    if kept == [] {
      AppendListed(st.delete, Tracked(n, v), o);
    } else if PortsMatch(cfg, v) && |kept| == |v.endpoints| {
      AppendListed(st.unmodified, Tracked(n, v), o);
    } else {
      var ports := if PortsMatch(cfg, v) then v.ports else ToEndpointPorts(cfg.ports);
      AppendListed(st.update, Tracked(n, SliceVal(kept, ports)), o);
    }
  }

  lemma TrimOneBalanced(cfg: Config, st: PlanState, n: nat, v: SliceVal, ip: string)
    requires Balanced(cfg, st)
    ensures BalancedAt(cfg, TrimOne(cfg, st, n, v), ip)
  {
    var kept := Kept(v.endpoints, st.todo);
    var ports := if PortsMatch(cfg, v) then v.ports else ToEndpointPorts(cfg.ports);
    assert BalancedAt(cfg, st, ip);
    KeptHolds(v.endpoints, st.todo, ip);
    KeptAll(v.endpoints, st.todo);
    AppendTimes(st.update, Tracked(n, SliceVal(kept, ports)), ip);
    AppendTimes(st.unmodified, Tracked(n, v), ip);
  }

  ghost predicate GoodTrimmed(cfg: Config, cur: seq<SliceVal>, t: Tracked) {
    t.origin < |cur| && t.slice.endpoints == KeptAt(cfg, cur, t.origin) && GoodUpdate(cfg, cur, t)
  }

  lemma {:induction false} TrimGood(cfg: Config, cur: seq<SliceVal>)
    ensures forall t :: t in Trim(cfg, cur).update ==> GoodTrimmed(cfg, cur, t)
    ensures forall t :: t in Trim(cfg, cur).delete ==> GoodDelete(cfg, cur, t)
    ensures forall t :: t in Trim(cfg, cur).unmodified ==> GoodUnmodified(cfg, cur, t)
  {
    if cur != [] {
      var init := cur[..|cur| - 1];
      TrimGood(cfg, init);
      forall t | GoodTrimmed(cfg, init, t) ensures GoodTrimmed(cfg, cur, t) { KeptAtStable(cfg, cur, t.origin); }
      forall t | GoodDelete(cfg, init, t) ensures GoodDelete(cfg, cur, t) { KeptAtStable(cfg, cur, t.origin); }
      forall t | GoodUnmodified(cfg, init, t) ensures GoodUnmodified(cfg, cur, t) { KeptAtStable(cfg, cur, t.origin); }
      TrimOneGood(cfg, cur);
    }
  }

  lemma KeptAtStable(cfg: Config, cur: seq<SliceVal>, o: nat)
    requires o < |cur| - 1
    ensures KeptAt(cfg, cur, o) == KeptAt(cfg, cur[..|cur| - 1], o) && cur[o] == cur[..|cur| - 1][o]
  {
    assert cur[..|cur| - 1][..o] == cur[..o];
  }

  // The slice trimmed last lands in the list its contents call for.
  lemma TrimOneGood(cfg: Config, cur: seq<SliceVal>)
    requires cur != []
    ensures var st := Trim(cfg, cur[..|cur| - 1]);
            var st' := Trim(cfg, cur);
            && (forall t :: t in st'.update ==> t in st.update || GoodTrimmed(cfg, cur, t))
            && (forall t :: t in st'.delete ==> t in st.delete || GoodDelete(cfg, cur, t))
            && (forall t :: t in st'.unmodified ==> t in st.unmodified || GoodUnmodified(cfg, cur, t))
  {
    var n := |cur| - 1;
    TrimTodo(cfg, cur[..n]);
    assert KeptAt(cfg, cur, n) == Kept(cur[n].endpoints, Trim(cfg, cur[..n]).todo);
    KeptAll(cur[n].endpoints, Trim(cfg, cur[..n]).todo);
    WrittenPortsMatch(cfg.ports);
  }

  lemma TrimSound(cfg: Config, cur: seq<SliceVal>)
    ensures Sound(cfg, cur, Trim(cfg, cur))
  {
    TrimBalanced(cfg, cur);
    TrimTodo(cfg, cur);
    TrimGood(cfg, cur);
    forall o: nat ensures PartitionedAt(|cur|, Trim(cfg, cur), o) { TrimPartitioned(cfg, cur, o); }
  }

  // ---- One round of the fill loop ----

  lemma RecordsFacts(cfg: Config, chunk: seq<string>)
    requires ValidConfig(cfg) && forall ip :: ip in chunk ==> ip in cfg.want
    ensures forall e :: e in Records(cfg, chunk) ==> IsRecord(cfg, e) && e.address in chunk
  {
  }

  lemma {:induction false} RecordsHold(cfg: Config, chunk: seq<string>, ip: string)
    requires ValidConfig(cfg) && (forall ip :: ip in chunk ==> ip in cfg.want) && NoDuplicates(chunk)
    ensures Occurrences(Records(cfg, chunk), ip) == if ip in chunk then 1 else 0
  {
    if chunk != [] {
      var init, last := chunk[..|chunk| - 1], chunk[|chunk| - 1];
      assert chunk == init + [last];
      RecordsHold(cfg, init, ip);
      assert Records(cfg, chunk)[..|init|] == Records(cfg, init);
    }
  }

  // Opening a slice moves no address and no slice: it may only empty a slice that held nothing wanted.
  lemma OpenBalanced(cfg: Config, st: PlanState, ip: string)
    requires BalancedAt(cfg, st, ip)
    ensures BalancedAt(cfg, Open(cfg, st).st, ip)
  {
    var n := FirstShort(st.unmodified, cfg.max - |st.todo|);
    OpenIs(cfg, st, FirstShort(st.update, cfg.max - 1), n);
    if FirstShort(st.update, cfg.max - 1) < |st.update| {
    } else if st.delete != [] {
      ReuseBalanced(cfg, st, ip);
    } else if n < |st.unmodified| {
      AbsorbBalanced(cfg, st, n, ip);
    } else {
      AddNewBalanced(cfg, st, ip);
    }
  }

  lemma ReuseBalanced(cfg: Config, st: PlanState, ip: string)
    requires BalancedAt(cfg, st, ip) && st.delete != []
    ensures BalancedAt(cfg, Reuse(st), ip)
  {
    AppendTimes(st.update, Tracked(st.delete[0].origin, st.delete[0].slice.(endpoints := [])), ip);
  }

  lemma AbsorbBalanced(cfg: Config, st: PlanState, n: nat, ip: string)
    requires BalancedAt(cfg, st, ip) && n < |st.unmodified|
    ensures BalancedAt(cfg, Absorb(st, n), ip)
  {
    AppendTimes(st.update, st.unmodified[n], ip);
    TakeOutTimes(st.unmodified, n, ip);
  }

  lemma AddNewBalanced(cfg: Config, st: PlanState, ip: string)
    requires BalancedAt(cfg, st, ip)
    ensures BalancedAt(cfg, AddNew(st), ip)
  {
    assert AddNew(st).create[..|st.create|] == st.create;
  }

  // Open, once both searches are done.
  lemma OpenIs(cfg: Config, st: PlanState, u: nat, n: nat)
    requires u == FirstShort(st.update, cfg.max - 1) && n == FirstShort(st.unmodified, cfg.max - |st.todo|)
    ensures Open(cfg, st) ==
            if u < |st.update| then Opened(st, InUpdate(u), false)
            else if |st.delete| > 0 then Opened(Reuse(st), InUpdate(|st.update|), true)
            else if n < |st.unmodified| then Opened(Absorb(st, n), InUpdate(|st.update|), false)
            else Opened(AddNew(st), InCreate(|st.create|), true)
  {
  }

  lemma OpenPartitioned(cfg: Config, n: nat, st: PlanState, o: nat)
    requires PartitionedAt(n, st, o)
    ensures PartitionedAt(n, Open(cfg, st).st, o)
  {
    var k := FirstShort(st.unmodified, cfg.max - |st.todo|);
    OpenIs(cfg, st, FirstShort(st.update, cfg.max - 1), k);
    if FirstShort(st.update, cfg.max - 1) < |st.update| {
    } else if st.delete != [] {
      ReusePartitioned(n, st, o);
    } else if k < |st.unmodified| {
      AbsorbPartitioned(n, st, k, o);
    }
  }

  lemma AbsorbPartitioned(n: nat, st: PlanState, k: nat, o: nat)
    requires PartitionedAt(n, st, o) && k < |st.unmodified|
    ensures PartitionedAt(n, Absorb(st, k), o)
  {
    AppendListed(st.update, st.unmodified[k], o);
    TakeOutListed(st.unmodified, k, o);
  }

  lemma ReusePartitioned(n: nat, st: PlanState, o: nat)
    requires PartitionedAt(n, st, o) && st.delete != []
    ensures PartitionedAt(n, Reuse(st), o)
  {
    AppendListed(st.update, Tracked(st.delete[0].origin, st.delete[0].slice.(endpoints := [])), o);
    FirstListed(st.delete, o);
  }

  lemma FirstListed(ts: seq<Tracked>, o: nat)
    requires ts != []
    ensures Listed(ts, o) == (if ts[0].origin == o then 1 else 0) + Listed(ts[1..], o)
  {
    assert ts == [ts[0]] + ts[1..] && [ts[0]] == [] + [ts[0]];
    ListedConcat([ts[0]], ts[1..], o);
    AppendListed([], ts[0], o);
  }

  lemma FillBalanced(cfg: Config, st: PlanState, target: Target, chunk: seq<string>, ports: seq<EndpointPort>, ip: string)
    requires ValidConfig(cfg) && HasTarget(st, target) && BalancedAt(cfg, st, ip)
    requires NoDuplicates(chunk) && forall ip :: ip in chunk ==> ip in st.todo && ip in cfg.want
    ensures var v := SliceVal(TargetSlice(st, target).endpoints + Records(cfg, chunk), ports);
            BalancedAt(cfg, SetTarget(st, target, v).(todo := st.todo - ToSet(chunk)), ip)
  {
    var before := TargetSlice(st, target).endpoints;
    var v := SliceVal(before + Records(cfg, chunk), ports);
    OccurrencesConcat(before, Records(cfg, chunk), ip);
    RecordsHold(cfg, chunk, ip);
    match target
    case InUpdate(i) =>
      TimesPut(Slices(st.update), i, v, ip);
      assert Slices(st.update[i := st.update[i].(slice := v)]) == Slices(st.update)[i := v];
    case InCreate(i) =>
      TimesPut(st.create, i, v, ip);
  }

  lemma {:induction false} ListedPut(ts: seq<Tracked>, i: nat, v: SliceVal, o: nat)
    requires i < |ts|
    ensures Listed(ts[i := ts[i].(slice := v)], o) == Listed(ts, o)
  {
    var ts' := ts[i := ts[i].(slice := v)];
    var n := |ts| - 1;
    if i < n {
      assert ts'[..n] == ts[..n][i := ts[i].(slice := v)];
      ListedPut(ts[..n], i, v, o);
    } else {
      assert ts'[..n] == ts[..n];
    }
  }
}
