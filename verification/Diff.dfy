// pkg/model/plan.go: the difference between the registered and the desired endpoints of a service.
module Diff {
  import opened Model

  datatype Changes = Changes(create: seq<Endpoint>, update: seq<Endpoint>, delete: seq<Endpoint>) {
    predicate IsNone() {
      |create| == 0 && |update| == 0 && |delete| == 0
    }
  }

  function Ids(es: seq<Endpoint>): set<string> {
    set e | e in es :: e.id
  }

  ghost predicate DistinctIds(es: seq<Endpoint>) {
    forall i, j :: 0 <= i < j < |es| ==> es[i].id != es[j].id
  }

  // The last endpoint given for an id wins.
  function ById(es: seq<Endpoint>): (m: map<string, Endpoint>)
    ensures m.Keys == Ids(es)
    ensures forall id :: id in m ==> m[id].id == id && m[id] in es
  {
    if es == [] then map[] else
      var init, last := es[..|es| - 1], es[|es| - 1];
      assert es == init + [last];
      ById(init)[last.id := last]
  }

  // The desired endpoint meets a current one: only the first desired endpoint of an id does.
  predicate Matches(current: map<string, Endpoint>, before: seq<Endpoint>, e: Endpoint) {
    e.id in current && e.id !in Ids(before)
  }

  function Creates(current: map<string, Endpoint>, desired: seq<Endpoint>): seq<Endpoint> {
    if desired == [] then [] else
      var init, last := desired[..|desired| - 1], desired[|desired| - 1];
      Creates(current, init) + if Matches(current, init, last) then [] else [last]
  }

  function Updates(current: map<string, Endpoint>, desired: seq<Endpoint>): seq<Endpoint> {
    if desired == [] then [] else
      var init, last := desired[..|desired| - 1], desired[|desired| - 1];
      Updates(current, init) + if Matches(current, init, last) && current[last.id] != last then [last] else []
  }

  // A list of the map's values, each once, in some order.
  ghost predicate Lists(es: seq<Endpoint>, m: map<string, Endpoint>) {
    && DistinctIds(es)
    && Ids(es) == m.Keys
    && forall e :: e in es ==> e.id in m && m[e.id] == e
  }

  ghost predicate IsDiff(c: Changes, current: seq<Endpoint>, desired: seq<Endpoint>) {
    && c.create == Creates(ById(current), desired)
    && c.update == Updates(ById(current), desired)
    && Lists(c.delete, ById(current) - Ids(desired))
  }

  method CalculateChanges(current: seq<Endpoint>, desired: seq<Endpoint>) returns (changes: Changes)
    ensures IsDiff(changes, current, desired)
  {
    var currentMap := IndexCurrent(current);
    var create, update;
    create, update, currentMap := MatchDesired(currentMap, desired);
    // iterate unmatched endpoints from Current to delete them
    var delete := ListUnmatched(currentMap);
    changes := Changes(create, update, delete);
  }

  // The first loop
  method IndexCurrent(current: seq<Endpoint>) returns (currentMap: map<string, Endpoint>)
    ensures currentMap == ById(current)
  {
    currentMap := map[];
    for i := 0 to |current|
      invariant currentMap == ById(current[..i])
    {
      assert current[..i + 1][..i] == current[..i];
      currentMap := currentMap[current[i].id := current[i]];
    }
    assert current[..|current|] == current;
  }

  // The second loop
  method MatchDesired(current: map<string, Endpoint>, desired: seq<Endpoint>)
    returns (create: seq<Endpoint>, update: seq<Endpoint>, unmatched: map<string, Endpoint>)
    ensures create == Creates(current, desired) && update == Updates(current, desired)
    ensures unmatched == current - Ids(desired)
  {
    var currentMap := current;
    create, update := [], [];
    for i := 0 to |desired|
      invariant currentMap == current - Ids(desired[..i])
      invariant create == Creates(current, desired[..i]) && update == Updates(current, desired[..i])
    {
      var e := desired[i];
      MatchNext(current, desired, i);
      if e.id in currentMap {
        if currentMap[e.id] != e {
          update := update + [e];
        }
        currentMap := currentMap - {e.id};
      } else {
        create := create + [e];
      }
    }
    assert desired[..|desired|] == desired;
    unmatched := currentMap;
  }

  lemma MatchNext(current: map<string, Endpoint>, desired: seq<Endpoint>, i: nat)
    requires i < |desired|
    ensures var e, before, upTo := desired[i], desired[..i], desired[..i + 1];
            && current - Ids(upTo) == current - Ids(before) - {e.id}
            && Creates(current, upTo) == Creates(current, before) + (if Matches(current, before, e) then [] else [e])
            && Updates(current, upTo)
               == Updates(current, before) + (if Matches(current, before, e) && current[e.id] != e then [e] else [])
  {
    assert desired[..i + 1][..i] == desired[..i];
    assert desired[..i + 1] == desired[..i] + [desired[i]];
  }

  // Ranging over the map: every value once, in an arbitrary order.
  method ListUnmatched(m: map<string, Endpoint>) returns (es: seq<Endpoint>)
    requires forall id :: id in m ==> m[id].id == id
    ensures Lists(es, m)
  {
    es := [];
    var rest := m.Keys;
    while rest != {}
      invariant rest <= m.Keys && Lists(es, m - rest)
      decreases |rest|
    {
      var id :| id in rest;
      ListsMore(es, m, rest, id);
      es, rest := es + [m[id]], rest - {id};
    }
    assert m - {} == m;
  }

  lemma ListsMore(es: seq<Endpoint>, m: map<string, Endpoint>, rest: set<string>, id: string)
    requires id in rest && rest <= m.Keys && Lists(es, m - rest) && m[id].id == id
    ensures Lists(es + [m[id]], m - (rest - {id}))
  {
    forall i | 0 <= i < |es| ensures es[i].id != id { assert es[i] in es; }
    assert Ids(es + [m[id]]) == Ids(es) + {id};
  }

  // ---- What applying the changes does ----

  function PutAll(m: map<string, Endpoint>, es: seq<Endpoint>): map<string, Endpoint> {
    if es == [] then m else PutAll(m, es[..|es| - 1])[es[|es| - 1].id := es[|es| - 1]]
  }

  lemma {:induction false} PutAllAt(m: map<string, Endpoint>, es: seq<Endpoint>, id: string)
    ensures id in PutAll(m, es) <==> id in m || id in Ids(es)
    ensures id in Ids(es) ==> PutAll(m, es)[id] in es && PutAll(m, es)[id].id == id
    ensures id !in Ids(es) && id in m ==> PutAll(m, es)[id] == m[id]
  {
    if es != [] {
      PutAllAt(m, es[..|es| - 1], id);
      assert es == es[..|es| - 1] + [es[|es| - 1]];
    }
  }

  // Every desired id is either written, with a desired endpoint, or already has one.
  lemma {:induction false} UpsertedOrUpToDate(current: map<string, Endpoint>, desired: seq<Endpoint>, id: string)
    requires id in Ids(desired)
    ensures id in Ids(Creates(current, desired) + Updates(current, desired)) || (id in current && current[id] in desired)
  {
    var init, last := desired[..|desired| - 1], desired[|desired| - 1];
    assert desired == init + [last];
    if id in Ids(init) {
      UpsertedOrUpToDate(current, init, id);
      if id in Ids(Creates(current, init) + Updates(current, init)) {
        var e :| e in Creates(current, init) + Updates(current, init) && e.id == id;
        assert e in Creates(current, desired) + Updates(current, desired);
      }
    } else if !Matches(current, init, last) || current[last.id] != last {
      assert last in Creates(current, desired) + Updates(current, desired);
    }
  }

  lemma {:induction false} UpsertsAreDesired(current: map<string, Endpoint>, desired: seq<Endpoint>)
    ensures forall e :: e in Creates(current, desired) + Updates(current, desired) ==> e in desired
  {
    if desired != [] {
      UpsertsAreDesired(current, desired[..|desired| - 1]);
      assert desired == desired[..|desired| - 1] + [desired[|desired| - 1]];
      forall e | e in Creates(current, desired) + Updates(current, desired) ensures e in desired {
        var init := desired[..|desired| - 1];
        assert e in Creates(current, init) + Updates(current, init) || e == desired[|desired| - 1];
      }
    }
  }

  lemma SameIdSame(es: seq<Endpoint>, e: Endpoint, f: Endpoint)
    requires DistinctIds(es) && e in es && f in es && e.id == f.id
    ensures e == f
  {
    var i :| 0 <= i < |es| && es[i] == e;
    var j :| 0 <= j < |es| && es[j] == f;
  }

  // Upserts in any order, then deletes: exactly the desired ids are left, each with a desired endpoint.
  // With distinct desired ids that is exactly the desired map.
  lemma DiffReaches(c: Changes, current: seq<Endpoint>, desired: seq<Endpoint>, upserts: seq<Endpoint>)
    requires IsDiff(c, current, desired)
    requires forall e :: e in upserts <==> e in c.create + c.update
    ensures var m := PutAll(ById(current), upserts) - Ids(c.delete);
            && m.Keys == Ids(desired)
            && (forall id :: id in m ==> m[id] in desired && m[id].id == id)
            && (DistinctIds(desired) ==> m == ById(desired))
  {
    var m := PutAll(ById(current), upserts) - Ids(c.delete);
    UpsertsAreDesired(ById(current), desired);
    forall id ensures id in m <==> id in Ids(desired)
      ensures id in m ==> m[id] in desired && m[id].id == id
    {
      PutAllAt(ById(current), upserts, id);
      if id in Ids(desired) {
        UpsertedOrUpToDate(ById(current), desired, id);
        if e :| e in c.create + c.update && e.id == id {
          assert e in upserts;
        }
      }
    }
    if DistinctIds(desired) {
      forall id | id in m ensures m[id] == ById(desired)[id] { SameIdSame(desired, m[id], ById(desired)[id]); }
    }
  }

  // No desired id is deleted, and only desired endpoints are written.
  lemma DeletesAreUndesired(c: Changes, current: seq<Endpoint>, desired: seq<Endpoint>)
    requires IsDiff(c, current, desired)
    ensures Ids(c.delete) == Ids(current) - Ids(desired)
    ensures forall e :: e in c.create + c.update ==> e in desired
  {
    UpsertsAreDesired(ById(current), desired);
  }

  // There is nothing to do exactly when no desired id repeats and the current endpoints are the desired ones.
  lemma IsNoneIffUpToDate(c: Changes, current: seq<Endpoint>, desired: seq<Endpoint>)
    requires IsDiff(c, current, desired)
    ensures c.IsNone() <==> DistinctIds(desired) && ById(desired) == ById(current)
  {
    if c.IsNone() {
      NoCreatesThenDistinct(ById(current), desired);
      DiffReaches(c, current, desired, []);
      assert ById(current) - Ids(c.delete) == ById(current);
    }
    if DistinctIds(desired) && ById(desired) == ById(current) {
      UpToDateThenNone(ById(current), desired);
    }
  }

  lemma {:induction false} NoCreatesThenDistinct(current: map<string, Endpoint>, desired: seq<Endpoint>)
    requires Creates(current, desired) == []
    ensures DistinctIds(desired)
  {
    if desired != [] {
      var init, last := desired[..|desired| - 1], desired[|desired| - 1];
      NoCreatesThenDistinct(current, init);
      assert last.id !in Ids(init);
      forall i | 0 <= i < |init| ensures desired[i].id != last.id {
        assert desired[i] in init;
      }
    }
  }

  lemma {:induction false} UpToDateThenNone(current: map<string, Endpoint>, desired: seq<Endpoint>)
    requires DistinctIds(desired) && forall e :: e in desired ==> e.id in current && current[e.id] == e
    ensures Creates(current, desired) == [] && Updates(current, desired) == []
  {
    if desired != [] {
      var init, last := desired[..|desired| - 1], desired[|desired| - 1];
      assert desired == init + [last];
      UpToDateThenNone(current, init);
    }
  }
}
