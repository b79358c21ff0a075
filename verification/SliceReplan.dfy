// The planner run twice: applying its changes and planning again changes nothing. And the planner run on a list that
// names one slice several times, as the list its caller builds does.
module SliceReplan {
  import opened Model
  import opened Ports
  import opened SliceSpec
  import opened SliceInvariant
  import opened SliceRounds
  import opened SliceTheorems
  import opened SlicePlanner

  // client.List: the slices of the store that the selector lets through.
  function Listing(store: seq<EndpointSlice>, namespace_: string, name: string): seq<EndpointSlice> {
    if store == [] then [] else
      var init, last := store[..|store| - 1], store[|store| - 1];
      Listing(init, namespace_, name) + if Selects(namespace_, name, last.meta) then [last] else []
  }

  function Without(store: seq<EndpointSlice>, gone: seq<EndpointSlice>): seq<EndpointSlice> {
    if store == [] then [] else
      var init, last := store[..|store| - 1], store[|store| - 1];
      Without(init, gone) + if last in gone then [] else [last]
  }

  // The store after the changes of a plan were applied; updates are made in place.
  function ApplyTo(store: seq<EndpointSlice>, changes: EndpointSliceChanges): seq<EndpointSlice>
    reads changes
  {
    Without(store, changes.delete) + changes.create
  }

  // Plan over the slices listed for the service, apply the changes, list again, plan again with the same desired
  // endpoints: the second listing is what the first plan left, and there is nothing to change. What is listed for
  // other services is as before.
  method PlanTwice(p: EndpointSlicePlan, store: seq<EndpointSlice>)
    returns (changes: EndpointSliceChanges, again: EndpointSliceChanges, after: seq<EndpointSlice>)
    requires NoDuplicates(store) && p.current == Listing(store, p.service.namespace_, p.service.name)
    modifies p.current
    ensures again.create == [] && again.update == [] && again.delete == []
    ensures |again.unmodified| == |changes.update| + |changes.create| + |changes.unmodified|
    ensures forall namespace_, name :: namespace_ != p.service.namespace_ || name != p.service.name ==>
              Listing(after, namespace_, name) == Listing(store, namespace_, name)
  {
    ListingDistinct(store, p.service.namespace_, p.service.name);
    ghost var cfg;
    var applied;
    changes, applied, cfg := PlanAndApply(p);
    after := ApplyTo(store, changes);
    Relisted(changes, store, p, applied);
    var current := Listing(after, p.service.namespace_, p.service.name);
    forall i | 0 <= i < |current| ensures current[i] in p.current || fresh(current[i]) {
      assert current[i] in multiset(applied);
    }
    again := PlanRelisted(p, current, applied, cfg);
  }

  // Planning over the applied slices, listed in another order
  method PlanRelisted(p: EndpointSlicePlan, current: seq<EndpointSlice>, ghost applied: seq<EndpointSlice>, ghost cfg: Config)
    returns (again: EndpointSliceChanges)
    requires NoDuplicates(current) && multiset(current) == multiset(applied)
    requires PlansFor(p, cfg) && Settled(cfg, Vals(applied))
    modifies current
    ensures again.create == [] && again.update == [] && again.delete == [] && |again.unmodified| == |applied|
  {
    ValsPermuted(applied, current);
    SettledPermuted(cfg, cfg, Vals(applied), Vals(current));
    assert |multiset(current)| == |multiset(applied)|;
    var next := new EndpointSlicePlan(p.maxEndpointsPerSlice, p.service, p.serviceImportName, current, p.desired, p.clusterId);
    assert next.current == current;
    again := PlanSettled(next, cfg);
  }

  lemma {:induction false} ListingHas(store: seq<EndpointSlice>, namespace_: string, name: string)
    ensures forall s :: s in Listing(store, namespace_, name) <==> s in store && Selects(namespace_, name, s.meta)
  {
    if store != [] {
      ListingHas(store[..|store| - 1], namespace_, name);
      assert store == store[..|store| - 1] + [store[|store| - 1]];
    }
  }

  lemma {:induction false} ListingDistinct(store: seq<EndpointSlice>, namespace_: string, name: string)
    requires NoDuplicates(store)
    ensures NoDuplicates(Listing(store, namespace_, name))
  {
    if store != [] {
      var init := store[..|store| - 1];
      ListingDistinct(init, namespace_, name);
      ListingHas(init, namespace_, name);
    }
  }

  lemma {:induction false} ListingConcat(a: seq<EndpointSlice>, b: seq<EndpointSlice>, namespace_: string, name: string)
    ensures Listing(a + b, namespace_, name) == Listing(a, namespace_, name) + Listing(b, namespace_, name)
  {
    if b == [] {
      assert a + b == a;
    } else {
      assert (a + b)[..|a + b| - 1] == a + b[..|b| - 1];
      ListingConcat(a, b[..|b| - 1], namespace_, name);
    }
  }

  // What is selected otherwise than the removed slices stays listed.
  lemma {:induction false} ListingWithout(store: seq<EndpointSlice>, gone: seq<EndpointSlice>, namespace_: string, name: string)
    requires forall s :: s in gone ==> !Selects(namespace_, name, s.meta)
    ensures Listing(Without(store, gone), namespace_, name) == Listing(store, namespace_, name)
  {
    if store != [] {
      var init, last := store[..|store| - 1], store[|store| - 1];
      ListingWithout(init, gone, namespace_, name);
      if last in gone {
        assert Without(store, gone) == Without(init, gone) && Listing(store, namespace_, name) == Listing(init, namespace_, name);
      } else {
        assert Without(store, gone) == Without(init, gone) + [last];
        assert (Without(init, gone) + [last])[..|Without(init, gone)|] == Without(init, gone);
      }
    }
  }

  lemma {:induction false} ListingOfNone(store: seq<EndpointSlice>, namespace_: string, name: string)
    requires forall s :: s in store ==> !Selects(namespace_, name, s.meta)
    ensures Listing(store, namespace_, name) == []
  {
    if store != [] {
      ListingOfNone(store[..|store| - 1], namespace_, name);
    }
  }

  lemma {:induction false} WithoutHas(store: seq<EndpointSlice>, gone: seq<EndpointSlice>)
    ensures forall s :: s in Without(store, gone) <==> s in store && s !in gone
  {
    if store != [] {
      WithoutHas(store[..|store| - 1], gone);
      assert store == store[..|store| - 1] + [store[|store| - 1]];
    }
  }

  lemma {:induction false} WithoutDistinct(store: seq<EndpointSlice>, gone: seq<EndpointSlice>)
    requires NoDuplicates(store)
    ensures NoDuplicates(Without(store, gone))
  {
    if store != [] {
      WithoutDistinct(store[..|store| - 1], gone);
      WithoutHas(store[..|store| - 1], gone);
    }
  }

  // Listing again finds exactly what the plan left for the service, and for others what was there.
  lemma Relisted(ch: EndpointSliceChanges, store: seq<EndpointSlice>, p: EndpointSlicePlan, applied: seq<EndpointSlice>)
    requires NoDuplicates(store) && p.current == Listing(store, p.service.namespace_, p.service.name)
    requires applied == ch.update + ch.create + ch.unmodified && NoDuplicates(applied)
    requires Conserves(ch.Snapshot(), p.current) && EachOnce(ch.Snapshot())
    requires forall s :: s in ch.create ==> s !in store && MadeFor(s.meta, p.service, p.serviceImportName, p.clusterId)
    ensures multiset(Listing(ApplyTo(store, ch), p.service.namespace_, p.service.name)) == multiset(applied)
    ensures NoDuplicates(Listing(ApplyTo(store, ch), p.service.namespace_, p.service.name))
    ensures forall namespace_, name :: namespace_ != p.service.namespace_ || name != p.service.name ==>
              Listing(ApplyTo(store, ch), namespace_, name) == Listing(store, namespace_, name)
  {
    OwnRelisted(ch, store, p, applied);
    forall namespace_, name | namespace_ != p.service.namespace_ || name != p.service.name
      ensures Listing(ApplyTo(store, ch), namespace_, name) == Listing(store, namespace_, name)
    {
      OthersRelisted(ch, store, p, namespace_, name);
    }
  }

  lemma OthersRelisted(ch: EndpointSliceChanges, store: seq<EndpointSlice>, p: EndpointSlicePlan, namespace_: string, name: string)
    requires p.current == Listing(store, p.service.namespace_, p.service.name) && Conserves(ch.Snapshot(), p.current)
    requires forall s :: s in ch.create ==> MadeFor(s.meta, p.service, p.serviceImportName, p.clusterId)
    requires namespace_ != p.service.namespace_ || name != p.service.name
    ensures Listing(ApplyTo(store, ch), namespace_, name) == Listing(store, namespace_, name)
  {
    ListedIsCurrent(ch.Snapshot(), p.current);
    ListingHas(store, p.service.namespace_, p.service.name);
    ListingWithout(store, ch.delete, namespace_, name);
    ListingOfNone(ch.create, namespace_, name);
    ListingConcat(Without(store, ch.delete), ch.create, namespace_, name);
  }

  lemma OwnRelisted(ch: EndpointSliceChanges, store: seq<EndpointSlice>, p: EndpointSlicePlan, applied: seq<EndpointSlice>)
    requires NoDuplicates(store) && p.current == Listing(store, p.service.namespace_, p.service.name)
    requires applied == ch.update + ch.create + ch.unmodified && NoDuplicates(applied)
    requires Conserves(ch.Snapshot(), p.current) && EachOnce(ch.Snapshot())
    requires forall s :: s in ch.create ==> s !in store && MadeFor(s.meta, p.service, p.serviceImportName, p.clusterId)
    ensures multiset(Listing(ApplyTo(store, ch), p.service.namespace_, p.service.name)) == multiset(applied)
    ensures NoDuplicates(Listing(ApplyTo(store, ch), p.service.namespace_, p.service.name))
  {
    var kept := Without(store, ch.delete);
    WithoutHas(store, ch.delete);
    WithoutDistinct(store, ch.delete);
    CreatedDistinct(ch);
    DistinctBoth(kept, ch.create);
    ListingDistinct(kept + ch.create, p.service.namespace_, p.service.name);
    ListingHas(kept + ch.create, p.service.namespace_, p.service.name);
    ListingHas(store, p.service.namespace_, p.service.name);
    KeptIffNotDeleted(ch, p.current);
    SameDistinct(Listing(kept + ch.create, p.service.namespace_, p.service.name), applied);
  }

  lemma CreatedDistinct(ch: EndpointSliceChanges)
    requires NoDuplicates(ch.update + ch.create + ch.unmodified)
    ensures NoDuplicates(ch.create)
  {
    var all := ch.update + ch.create + ch.unmodified;
    forall i, j | 0 <= i < j < |ch.create| ensures ch.create[i] != ch.create[j] {
      assert all[|ch.update| + i] == ch.create[i] && all[|ch.update| + j] == ch.create[j];
    }
  }

  lemma DistinctBoth(a: seq<EndpointSlice>, b: seq<EndpointSlice>)
    requires NoDuplicates(a) && NoDuplicates(b) && forall s :: s in b ==> s !in a
    ensures NoDuplicates(a + b)
  {
    assert forall i :: 0 <= i < |b| ==> b[i] !in a;
    DistinctConcat(a, b);
  }

  // A slice of Current is updated or unmodified, or else deleted.
  lemma KeptIffNotDeleted(ch: EndpointSliceChanges, current: seq<EndpointSlice>)
    requires Conserves(ch.Snapshot(), current) && EachOnce(ch.Snapshot())
    ensures forall s :: s in ch.update || s in ch.unmodified <==> s in current && s !in ch.delete
  {
    var u, d, n := ch.update, ch.delete, ch.unmodified;
    forall s ensures s in u || s in n <==> s in current && s !in d {
      assert multiset(current)[s] == multiset(u)[s] + multiset(d)[s] + multiset(n)[s];
      assert s in current <==> multiset(current)[s] > 0;
      if s in d && (s in u || s in n) {
        NotTwice(u, d, n, ch.create, s);
      }
    }
  }

  lemma NotTwice(u: seq<EndpointSlice>, d: seq<EndpointSlice>, n: seq<EndpointSlice>, c: seq<EndpointSlice>, s: EndpointSlice)
    requires NoDuplicates(u + d + n + c) && s in d
    ensures s !in u && s !in n
  {
    var all := u + d + n + c;
    var j :| 0 <= j < |d| && d[j] == s;
    assert all[|u| + j] == s;
    forall i | 0 <= i < |u| ensures u[i] != s { assert all[i] == u[i]; }
    forall i | 0 <= i < |n| ensures n[i] != s { assert all[|u| + |d| + i] == n[i]; }
  }

  lemma SameDistinct(a: seq<EndpointSlice>, b: seq<EndpointSlice>)
    requires NoDuplicates(a) && NoDuplicates(b) && forall s :: s in a <==> s in b
    ensures multiset(a) == multiset(b)
  {
    DistinctIff(a);
    DistinctIff(b);
    forall s ensures multiset(a)[s] == multiset(b)[s] {
      assert s in a <==> s in multiset(a);
      assert s in b <==> s in multiset(b);
    }
  }

  lemma {:induction false} ValsPermuted(a: seq<EndpointSlice>, b: seq<EndpointSlice>)
    requires multiset(a) == multiset(b)
    ensures multiset(Vals(a)) == multiset(Vals(b))
  {
    if a == [] {
      assert |multiset(b)| == 0;
      assert b == [];
    } else {
      var init, last := a[..|a| - 1], a[|a| - 1];
      assert a == init + [last] + [];
      var front, back := TakeOut(a, b, init, last);
      ValsPermuted(init, front + back);
      ValsAround(init, last, []);
      ValsAround(front, last, back);
      assert init + [] == init;
    }
  }

  lemma TakeOut(a: seq<EndpointSlice>, b: seq<EndpointSlice>, init: seq<EndpointSlice>, last: EndpointSlice)
    returns (front: seq<EndpointSlice>, back: seq<EndpointSlice>)
    requires multiset(a) == multiset(b) && a == init + [last]
    ensures b == front + [last] + back && multiset(init) == multiset(front + back)
  {
    assert last in multiset(b);
    var i :| 0 <= i < |b| && b[i] == last;
    front, back := b[..i], b[i + 1..];
    assert b == front + [last] + back;
    Cancel(multiset(init), multiset(front) + multiset(back), multiset{last});
  }

  lemma ValsAround(front: seq<EndpointSlice>, s: EndpointSlice, back: seq<EndpointSlice>)
    ensures multiset(Vals(front + [s] + back)) == multiset(Vals(front + back)) + multiset{s.Val()}
  {
    assert Vals(front + [s] + back) == Vals(front) + [s.Val()] + Vals(back);
    assert Vals(front + back) == Vals(front) + Vals(back);
  }

  // The slices left when the changes of a plan are applied are settled.
  method PlanAndApply(p: EndpointSlicePlan)
    returns (changes: EndpointSliceChanges, applied: seq<EndpointSlice>, ghost cfg: Config)
    requires NoDuplicates(p.current)
    modifies p.current
    ensures fresh(changes) && applied == changes.update + changes.create + changes.unmodified
    ensures PlansFor(p, cfg) && NoDuplicates(applied) && Settled(cfg, Vals(applied))
    ensures Conserves(changes.Snapshot(), p.current) && EachOnce(changes.Snapshot())
    ensures forall s :: s in changes.create ==> fresh(s) && MadeFor(s.meta, p.service, p.serviceImportName, p.clusterId)
    ensures forall i :: 0 <= i < |applied| ==> applied[i] in p.current || fresh(applied[i])
  {
    ghost var chunks;
    ghost var cur := Vals(p.current);
    changes, cfg, chunks := p.CalculateChanges();
    applied := changes.update + changes.create + changes.unmodified;
    AppliedFacts(changes, p.current, cfg, cur, chunks);
  }

  // Planning over a settled list changes nothing.
  method PlanSettled(p: EndpointSlicePlan, ghost cfg: Config) returns (changes: EndpointSliceChanges)
    requires NoDuplicates(p.current) && PlansFor(p, cfg) && Settled(cfg, Vals(p.current))
    modifies p.current
    ensures fresh(changes) && changes.create == [] && changes.update == [] && changes.delete == []
    ensures |changes.unmodified| == |p.current|
  {
    ghost var cfg2, chunks;
    ghost var cur := Vals(p.current);
    changes, cfg2, chunks := p.CalculateChanges();
    SettledPermuted(cfg, cfg2, cur, cur);
    SettledThenIdle(cfg2, cur, chunks);
    NothingToApply(changes, p.current, Run(cfg2, cur, chunks));
  }

  // cfg is a configuration CalculateChanges may work from: only the order of the ports is open.
  ghost predicate PlansFor(p: EndpointSlicePlan, cfg: Config) {
    ConfigFor(cfg, p.desired) && cfg == p.ConfigWith(cfg.want, cfg.ports)
  }

  lemma NothingToApply(ch: EndpointSliceChanges, current: seq<EndpointSlice>, st: PlanState)
    requires Represents(ch, current, st) && NoChange(st) && |Slices(st.unmodified)| == |current|
    ensures ch.create == [] && ch.update == [] && ch.delete == [] && |ch.unmodified| == |current|
  {
  }

  lemma AppliedFacts(ch: EndpointSliceChanges, current: seq<EndpointSlice>, cfg: Config,
                     cur: seq<SliceVal>, chunks: seq<seq<string>>)
    requires NoDuplicates(current) && |cur| == |current| && ValidConfig(cfg) && IsPlan(cfg, cur, chunks)
    requires Represents(ch, current, Run(cfg, cur, chunks))
    ensures NoDuplicates(ch.update + ch.create + ch.unmodified)
    ensures var applied := ch.update + ch.create + ch.unmodified;
            forall i :: 0 <= i < |applied| ==> applied[i] in current || applied[i] in ch.create
    ensures Settled(cfg, Vals(ch.update + ch.create + ch.unmodified))
  {
    RunSound(cfg, cur, chunks);
    AppliedDistinct(ch, current, Run(cfg, cur, chunks));
    AppliedKnown(ch, current);
    AppliedVals(ch, current, Run(cfg, cur, chunks));
    PlanIsExact(cfg, cur, chunks);
  }

  lemma AppliedKnown(ch: EndpointSliceChanges, current: seq<EndpointSlice>)
    requires forall s :: s in ch.update + ch.unmodified ==> s in current
    ensures var applied := ch.update + ch.create + ch.unmodified;
            forall i :: 0 <= i < |applied| ==> applied[i] in current || applied[i] in ch.create
  {
    forall s | s in ch.update || s in ch.unmodified ensures s in current {
      assert s in ch.update + ch.unmodified;
    }
  }

  lemma AppliedVals(ch: EndpointSliceChanges, cur: seq<EndpointSlice>, st: PlanState)
    requires Represents(ch, cur, st)
    ensures Vals(ch.update + ch.create + ch.unmodified) == Survivors(st)
  {
  }

  lemma AppliedDistinct(ch: EndpointSliceChanges, cur: seq<EndpointSlice>, st: PlanState)
    requires NoDuplicates(cur) && Represents(ch, cur, st) && Partitioned(|cur|, st)
    ensures NoDuplicates(ch.update + ch.create + ch.unmodified)
    ensures forall s :: s in ch.update + ch.unmodified ==> s in cur
  {
    PartitionedIsApart(|cur|, st);
    MirroredIn(ch.update, cur, st.update);
    MirroredIn(ch.unmodified, cur, st.unmodified);
    MirroredApart(ch.update, ch.unmodified, cur, st.update, st.unmodified);
    forall i, j | 0 <= i < j < |ch.update| ensures ch.update[i] != ch.update[j] { MirroredOnce(ch.update, cur, st.update, i); }
    forall i, j | 0 <= i < j < |ch.unmodified| ensures ch.unmodified[i] != ch.unmodified[j] {
      MirroredOnce(ch.unmodified, cur, st.unmodified, i);
    }
    DistinctConcat(ch.update, ch.create);
    DistinctConcat(ch.update + ch.create, ch.unmodified);
  }

  // ---- One slice listed several times ----

  // The list updateEndpointSlices builds. Under Go 1.19, the version the module names, the variable of a range loop is
  // one variable for the whole loop, so its address is the same each time and its contents end up being the last item.
  method GatherSlices(items: seq<SliceVal>, meta: SliceMeta) returns (existingSlices: seq<EndpointSlice>, existingSlice: EndpointSlice)
    ensures fresh(existingSlice) && existingSlices == Repeated(existingSlice, |items|)
    ensures items != [] ==> existingSlice.Val() == items[|items| - 1]
  {
    existingSlice := new EndpointSlice(meta);
    existingSlices := [];
    for n := 0 to |items|
      invariant fresh(existingSlice) && existingSlices == Repeated(existingSlice, n)
      invariant n > 0 ==> existingSlice.Val() == items[n - 1]
    {
      existingSlice.endpoints, existingSlice.ports := items[n].endpoints, items[n].ports;
      existingSlices := existingSlices + [existingSlice];
    }
  }

  ghost function Repeated(s: EndpointSlice, n: nat): seq<EndpointSlice> {
    seq(n, _ => s)
  }

  // All the plan's lists together name that slice n times: the plan names each object once iff n is at most one.
  method PlanRepeated(p: EndpointSlicePlan, s: EndpointSlice, n: nat) returns (changes: EndpointSliceChanges)
    requires p.current == Repeated(s, n)
    modifies s
    ensures fresh(changes) && (EachOnce(changes.Snapshot()) <==> n <= 1)
    ensures |changes.update| + |changes.delete| + |changes.unmodified| == n
    ensures forall o :: o in changes.update + changes.delete + changes.unmodified ==> o == s
  {
    ghost var cfg, chunks;
    changes, cfg, chunks := p.CalculateChanges();
    RepeatedDistinct(s, n);
    AllRepeated(changes.Snapshot(), s, n);
  }

  lemma RepeatedDistinct(s: EndpointSlice, n: nat)
    ensures NoDuplicates(Repeated(s, n)) <==> n <= 1
  {
    if n > 1 {
      assert Repeated(s, n)[0] == Repeated(s, n)[1];
    }
  }

  lemma AllRepeated(l: ChangeLists, s: EndpointSlice, n: nat)
    requires Conserves(l, Repeated(s, n))
    ensures |l.update| + |l.delete| + |l.unmodified| == n
    ensures forall o :: o in l.update + l.delete + l.unmodified ==> o == s
  {
    assert |multiset(Repeated(s, n))| == n;
    assert |multiset(l.update) + multiset(l.delete) + multiset(l.unmodified)| == |l.update| + |l.delete| + |l.unmodified|;
    ListedIsCurrent(l, Repeated(s, n));
  }

  // A slice that needs no change, listed n times, is both kept and deleted as soon as n is at least two.
  method PlanSettledRepeated(p: EndpointSlicePlan, s: EndpointSlice, n: nat, ghost cfg: Config)
    returns (changes: EndpointSliceChanges)
    requires n >= 1 && p.current == Repeated(s, n) && PlansFor(p, cfg) && Settled(cfg, [s.Val()])
    modifies s
    ensures fresh(changes) && changes.create == [] && changes.update == []
    ensures changes.unmodified == [s] && changes.delete == Repeated(s, n - 1)
  {
    ghost var cfg2, chunks;
    ghost var v := s.Val();
    assert Vals(p.current) == seq(n, _ => v);
    changes, cfg2, chunks := p.CalculateChanges();
    SettledPermuted(cfg, cfg2, [v], [v]);
    TrimRepeated(cfg2, v, n);
    RepeatedIdle(changes, cfg2, s, v, n, chunks);
  }

  lemma RepeatedIdle(ch: EndpointSliceChanges, cfg: Config, s: EndpointSlice, v: SliceVal, n: nat, chunks: seq<seq<string>>)
    requires n >= 1 && Settled(cfg, [v]) && IsPlan(cfg, seq(n, _ => v), chunks)
    requires Represents(ch, Repeated(s, n), Run(cfg, seq(n, _ => v), chunks))
    ensures ch.create == [] && ch.update == [] && ch.unmodified == [s] && ch.delete == Repeated(s, n - 1)
  {
    TrimRepeated(cfg, v, n);
    if chunks != [] { FirstRound(cfg, seq(n, _ => v), chunks); }
  }

  lemma {:induction false} TrimRepeated(cfg: Config, v: SliceVal, n: nat)
    requires n >= 1 && Settled(cfg, [v])
    ensures Trim(cfg, seq(n, _ => v)) == PlanState([], seq(n - 1, i requires 0 <= i < n - 1 => Tracked(i + 1, v)), [Tracked(0, v)], [], {})
  {
    var vs := seq(n, _ => v);
    assert vs[..n - 1] == seq(n - 1, _ => v);
    if n == 1 {
      assert vs == [v] && [v][..0] == [] && [v][..1] == [v];
      SettledTrim(cfg, [v], 1);
      SettledTodo(cfg, [v]);
      TrimKeepsOrder(cfg, [v]);
      TrimTodo(cfg, [v]);
    } else {
      TrimRepeated(cfg, v, n - 1);
      KeptNothing(v.endpoints);
    }
  }

  lemma {:induction false} KeptNothing(es: seq<SliceEndpoint>)
    ensures Kept(es, {}) == []
  {
    if es != [] {
      KeptNothing(es[..|es| - 1]);
    }
  }
}
