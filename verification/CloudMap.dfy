// Cloud Map as one client sees it: a store that other clusters write to whenever they like, behind an API
// whose calls take time and may fail.
module CloudMap {
  import opened Common
  import opened Model
  import opened Codec
  import opened Diff
  import opened Registry
  import opened Poller

  // namespace name -> service name -> instances
  type World = map<string, map<string, Instances>>

  predicate Has(w: World, ns: string, svc: string) {
    ns in w && svc in w[ns]
  }

  function InstancesAt(w: World, ns: string, svc: string): Instances {
    if Has(w, ns, svc) then w[ns][svc] else map[]
  }

  function OwnAt(w: World, ns: string, svc: string, setId: string, clusterId: string): map<string, Endpoint> {
    Own(InstancesAt(w, ns, svc), setId, clusterId)
  }

  predicate NamesOk(w: World) {
    forall ns | ns in w :: forall svc | svc in w[ns] :: ':' !in svc
  }

  // Others may add namespaces and services and change any instance but this cluster's; they delete no service.
  predicate OthersOnly(a: World, b: World, setId: string, clusterId: string) {
    && NamesOk(b)
    && (forall ns | ns in a :: ns in b && forall svc | svc in a[ns] :: svc in b[ns])
    && (forall ns | ns in b :: forall svc | svc in b[ns] :: OwnAt(b, ns, svc, setId, clusterId) == OwnAt(a, ns, svc, setId, clusterId))
  }

  // At time `at` the world was `world`.
  datatype Moment = Moment(at: nat, world: World)

  // Everything there stays, and this cluster's part of every service too.
  ghost predicate Grows(a: World, b: World, setId: string, clusterId: string) {
    && (forall ns, svc :: Has(a, ns, svc) ==> Has(b, ns, svc))
    && (forall ns :: ns in a ==> ns in b)
    && (forall ns, svc :: OwnAt(b, ns, svc, setId, clusterId) == OwnAt(a, ns, svc, setId, clusterId))
  }

  lemma GrowsOn(a: World, b: World, c: World, setId: string, clusterId: string)
    requires Grows(a, b, setId, clusterId) && Grows(b, c, setId, clusterId)
    ensures Grows(a, c, setId, clusterId)
  {
  }

  lemma OthersGrow(a: World, b: World, setId: string, clusterId: string)
    requires OthersOnly(a, b, setId, clusterId)
    ensures Grows(a, b, setId, clusterId)
  {
    forall ns, svc ensures OwnAt(b, ns, svc, setId, clusterId) == OwnAt(a, ns, svc, setId, clusterId) {
      if !Has(b, ns, svc) { assert !Has(a, ns, svc); }
    }
  }

  datatype Operation = Operation(ns: string, svc: string, eff: Effect)

  function Operations(ns: string, svc: string, log: seq<Effect>): seq<Operation> {
    seq(|log|, i requires 0 <= i < |log| => Operation(ns, svc, log[i]))
  }

  lemma OperationsConcat(ns: string, svc: string, a: seq<Effect>, b: seq<Effect>)
    ensures Operations(ns, svc, a + b) == Operations(ns, svc, a) + Operations(ns, svc, b)
  {
  }

  datatype Instance = Instance(id: string, attributes: Attributes)

  lemma AddNamespace(w: World, ns: string, setId: string, clusterId: string)
    requires ns !in w
    ensures Grows(w, w[ns := map[]], setId, clusterId)
  {
  }

  // The world with one service's instances replaced.
  lemma PutAt(w: World, ns: string, svc: string, reg: Instances, n: string, s: string)
    requires ns in w
    ensures var w' := w[ns := w[ns][svc := reg]];
            && InstancesAt(w', n, s) == (if n == ns && s == svc then reg else InstancesAt(w, n, s))
            && (Has(w', n, s) <==> Has(w, n, s) || (n == ns && s == svc))
  {
  }

  lemma AddService(w: World, ns: string, svc: string, setId: string, clusterId: string)
    requires ns in w && svc !in w[ns]
    ensures Grows(w, w[ns := w[ns][svc := map[]]], setId, clusterId)
  {
    var w' := w[ns := w[ns][svc := map[]]];
    forall n, s ensures OwnAt(w', n, s, setId, clusterId) == OwnAt(w, n, s, setId, clusterId) && (Has(w, n, s) ==> Has(w', n, s)) {
      PutAt(w, ns, svc, map[], n, s);
    }
  }

  // An operation on one service, while others write: this cluster's part of that service changes by the effect.
  ghost predicate Does(a: World, b: World, ns: string, svc: string, eff: Effect, setId: string, clusterId: string) {
    && (forall n, s :: Has(a, n, s) ==> Has(b, n, s))
    && (forall n :: n in a ==> n in b)
    && (forall n, s :: (n, s) != (ns, svc) ==> OwnAt(b, n, s, setId, clusterId) == OwnAt(a, n, s, setId, clusterId))
    && OwnAt(b, ns, svc, setId, clusterId) == ApplyRead(OwnAt(a, ns, svc, setId, clusterId), eff)
  }

  lemma EffectDoes(w: World, ns: string, svc: string, eff: Effect, setId: string, clusterId: string)
    requires Has(w, ns, svc) && (eff.Register? ==> Exportable(eff.e, setId, clusterId))
    ensures Does(w, w[ns := w[ns][svc := Apply(w[ns][svc], eff)]], ns, svc, eff, setId, clusterId)
  {
    ReadAfter(w[ns][svc], setId, eff);
    OwnAfter(Listed(w[ns][svc], setId), clusterId, eff);
    ReplacementDoes(w, ns, svc, Apply(w[ns][svc], eff), eff, setId, clusterId);
  }

  lemma ReplacementDoes(w: World, ns: string, svc: string, reg: Instances, eff: Effect, setId: string, clusterId: string)
    requires Has(w, ns, svc) && Own(reg, setId, clusterId) == ApplyRead(OwnAt(w, ns, svc, setId, clusterId), eff)
    ensures Does(w, w[ns := w[ns][svc := reg]], ns, svc, eff, setId, clusterId)
  {
    var w' := w[ns := w[ns][svc := reg]];
    forall n, s ensures (n, s) != (ns, svc) ==> OwnAt(w', n, s, setId, clusterId) == OwnAt(w, n, s, setId, clusterId)
      ensures Has(w, n, s) ==> Has(w', n, s)
    {
      PutAt(w, ns, svc, reg, n, s);
    }
    PutAt(w, ns, svc, reg, ns, svc);
  }

  lemma NothingDoes(w: World, ns: string, svc: string, setId: string, clusterId: string)
    ensures Does(w, w, ns, svc, NoEffect, setId, clusterId)
  {
  }

  // What others do before and after an operation changes nothing of this.
  lemma DoesAmongOthers(a: World, b: World, c: World, d: World, ns: string, svc: string, eff: Effect, setId: string, clusterId: string)
    requires Grows(a, b, setId, clusterId) && Does(b, c, ns, svc, eff, setId, clusterId) && Grows(c, d, setId, clusterId)
    ensures Does(a, d, ns, svc, eff, setId, clusterId)
  {
  }

  predicate InSet(attributes: Attributes, setId: string) {
    ClusterSetIdAttr in attributes && attributes[ClusterSetIdAttr] == setId
  }

  // A read lists every instance of the cluster set once, in any order.
  ghost predicate ListsInstances(insts: seq<Instance>, reg: Instances, setId: string) {
    && (forall i, j :: 0 <= i < j < |insts| ==> insts[i].id != insts[j].id)
    && (forall inst :: inst in insts ==> inst.id in reg && reg[inst.id] == inst.attributes && InSet(inst.attributes, setId))
    && (forall id :: id in reg && InSet(reg[id], setId) ==> Instance(id, reg[id]) in insts)
  }

  lemma ListsOneMore(insts: seq<Instance>, reg: Instances, rest: set<string>, id: string, setId: string)
    requires id in rest && rest <= reg.Keys && ListsInstances(insts, reg - rest, setId)
    ensures ListsInstances(if InSet(reg[id], setId) then insts + [Instance(id, reg[id])] else insts, reg - (rest - {id}), setId)
  {
    var more := reg - (rest - {id});
    forall k | k in more && InSet(more[k], setId) && k != id ensures Instance(k, more[k]) in insts {
      assert k in reg - rest;
    }
    forall inst | inst in insts ensures inst.id in more && inst.id != id {}
  }

  class Api {
    const setId: string
    const clusterId: string
    // A read's answer arrives at most this long after it was taken.
    const latency: nat
    var now: nat
    var world: World
    ghost var moments: seq<Moment>
    // How many calls came back with an error, and the operations of this client that were applied, in order.
    ghost var failures: nat
    ghost var applied: seq<Operation>
    // The errors its operations ended with, in order.
    ghost var reported: seq<Error>

    constructor (setId: string, clusterId: string, latency: nat, now: nat, world: World)
      requires NamesOk(world)
      ensures this.setId == setId && this.clusterId == clusterId && this.latency == latency
      ensures Valid() && this.now == now && this.world == world && moments == []
    {
      this.setId, this.clusterId, this.latency := setId, clusterId, latency;
      this.now, this.world, moments := now, world, [];
      failures, applied, reported := 0, [], [];
    }

    ghost predicate Valid()
      reads this
    {
      NamesOk(world) && forall m :: m in moments ==> m.at <= now
    }

    // Time passes and others write.
    method Others(limit: nat)
      requires Valid()
      modifies this`now, this`world
      ensures Valid() && old(now) <= now <= old(now) + limit && Grows(old(world), world, setId, clusterId)
    {
      var w: World, passed: nat := *, *;
      if passed <= limit {
        now := now + passed;
      }
      if OthersOnly(world, w, setId, clusterId) {
        OthersGrow(world, w, setId, clusterId);
        world := w;
      }
    }

    method GetNamespaceMap() returns (r: Result<set<string>>, ghost taken: Moment)
      requires Valid()
      modifies this
      ensures Valid() && Took(taken)
      ensures r.Ok? ==> r.value == taken.world.Keys
      ensures r.Err? ==> !r.error.notFound
      ensures failures == old(failures) + if r.Err? then 1 else 0
    {
      taken := Take();
      r := Ok(world.Keys);
      Deliver(taken);
      r := MayFail(r);
    }

    method GetServiceIdMap(nsName: string) returns (r: Result<set<string>>, ghost taken: Moment)
      requires Valid()
      modifies this
      ensures Valid() && Took(taken)
      ensures r.Ok? ==> nsName in taken.world && r.value == taken.world[nsName].Keys
      ensures r.Err? ==> !r.error.notFound
      ensures failures == old(failures) + if r.Err? then 1 else 0
    {
      taken := Take();
      if nsName in world {
        r := Ok(world[nsName].Keys);
      } else {
        r := Err(NewError("NamespaceNotFound"));
      }
      Deliver(taken);
      r := MayFail(r);
    }

    // A read saw the world as it was at one moment of the call, and its answer came soon after.
    twostate predicate Took(taken: Moment)
      reads this
    {
      && applied == old(applied) && reported == old(reported)
      && moments == old(moments) + [taken]
      && old(now) <= taken.at <= now <= taken.at + latency
      && Grows(old(world), taken.world, setId, clusterId) && Grows(taken.world, world, setId, clusterId)
    }

    // The first half of a read: others act, then the answer is taken.
    method Take() returns (ghost taken: Moment)
      requires Valid()
      modifies this`now, this`world, this`moments
      ensures Valid() && taken == Moment(now, world) && moments == old(moments) + [taken]
      ensures old(now) <= now && Grows(old(world), world, setId, clusterId)
    {
      Others(latency);
      taken := Moment(now, world);
      moments := moments + [taken];
    }

    // The second half: others act while the answer is under way.
    method Deliver(ghost taken: Moment)
      requires Valid() && taken == Moment(now, world)
      modifies this`now, this`world
      ensures Valid() && taken.at <= now <= taken.at + latency && Grows(taken.world, world, setId, clusterId)
    {
      Others(latency);
    }

    // Any call may fail, with an error that is not the client's own not-found error.
    method MayFail<T>(answer: Result<T>) returns (r: Result<T>)
      requires answer.Err? ==> !answer.error.notFound
      modifies this`failures
      ensures r == answer || (r.Err? && !r.error.notFound)
      ensures failures == old(failures) + if r.Err? then 1 else 0
    {
      var failed: bool, text: string := *, *;
      r := if failed then Err(NewError(text)) else answer;
      failures := failures + if r.Err? then 1 else 0;
    }

    // CreateHttpNamespace followed by polling its operation.
    method CreateHttpNamespace(nsName: string) returns (r: Result<()>)
      requires Valid()
      modifies this`now, this`world, this`failures
      ensures Valid() && old(now) <= now && Grows(old(world), world, setId, clusterId)
      ensures r.Ok? ==> nsName in world
      ensures r.Err? ==> !r.error.notFound
      ensures failures == old(failures) + if r.Err? then 1 else 0
    {
      Others(latency);
      if nsName in world {
        r := Err(NewError("NamespaceAlreadyExists"));
      } else {
        r := Ok(());
        AddNamespace(world, nsName, setId, clusterId);
        world := world[nsName := map[]];
      }
      Others(latency);
      r := MayFail(r);
    }

    method CreateService(nsName: string, svcName: string) returns (r: Result<()>)
      requires Valid() && ':' !in svcName
      modifies this`now, this`world, this`failures
      ensures Valid() && old(now) <= now && Grows(old(world), world, setId, clusterId)
      ensures r.Ok? ==> Has(world, nsName, svcName)
      ensures r.Err? ==> !r.error.notFound
      ensures failures == old(failures) + if r.Err? then 1 else 0
    {
      Others(latency);
      if nsName !in world {
        r := Err(NewError("NamespaceNotFound"));
      } else if svcName in world[nsName] {
        r := Err(NewError("ServiceAlreadyExists"));
      } else {
        r := Ok(());
        AddService(world, nsName, svcName, setId, clusterId);
        world := world[nsName := world[nsName][svcName := map[]]];
      }
      Others(latency);
      r := MayFail(r);
    }

    method DiscoverInstances(nsName: string, svcName: string) returns (r: Result<seq<Instance>>, ghost taken: Moment)
      requires Valid()
      modifies this
      ensures Valid() && Took(taken)
      ensures r.Ok? ==> ListsInstances(r.value, InstancesAt(taken.world, nsName, svcName), setId)
      ensures r.Err? ==> !r.error.notFound
      ensures failures == old(failures) + if r.Err? then 1 else 0
    {
      taken := Take();
      if Has(world, nsName, svcName) {
        var insts := ListInstances(world[nsName][svcName]);
        r := Ok(insts);
      } else {
        r := Err(NewError("ServiceNotFound"));
      }
      Deliver(taken);
      r := MayFail(r);
    }

    method ListInstances(reg: Instances) returns (insts: seq<Instance>)
      ensures ListsInstances(insts, reg, setId)
    {
      insts := [];
      var rest := reg.Keys;
      while rest != {}
        invariant rest <= reg.Keys && ListsInstances(insts, reg - rest, setId)
        decreases |rest|
      {
        var id :| id in rest;
        ListsOneMore(insts, reg, rest, id, setId);
        if InSet(reg[id], setId) {
          insts := insts + [Instance(id, reg[id])];
        }
        rest := rest - {id};
      }
      assert reg - {} == reg;
    }

    // One register or deregister operation from its submission to its end.
    // It succeeds only if it was applied; a failed one may have been applied too.
    method RunOperation(nsName: string, svcName: string, eff: Effect) returns (done: bool, res: OpResult)
      requires Valid() && (eff.Register? ==> Exportable(eff.e, setId, clusterId))
      modifies this`now, this`world, this`failures, this`applied, this`reported
      ensures Valid() && old(now) <= now
      ensures failures == old(failures) + if res.err != None then 1 else 0
      ensures res.err == None ==> done
      ensures applied == old(applied) + if done then [Operation(nsName, svcName, eff)] else []
      ensures reported == old(reported) + if res.err != None then [res.err.value] else []
      ensures Does(old(world), world, nsName, svcName, if done then eff else NoEffect, setId, clusterId)
    {
      Others(latency);
      ghost var before := world;
      done := *;
      var failed: bool, opId: string, text: string := *, *, *;
      if done && Has(world, nsName, svcName) {
        EffectDoes(world, nsName, svcName, eff, setId, clusterId);
        world := world[nsName := world[nsName][svcName := Apply(world[nsName][svcName], eff)]];
        applied := applied + [Operation(nsName, svcName, eff)];
      } else {
        done := false;
        NothingDoes(world, nsName, svcName, setId, clusterId);
      }
      ghost var after := world;
      Others(latency);
      DoesAmongOthers(old(world), before, after, world, nsName, svcName, if done then eff else NoEffect, setId, clusterId);
      res := OpResult(opId, if failed || !done then Some(NewError(text)) else None);
      failures := failures + if res.err != None then 1 else 0;
      reported := reported + if res.err != None then [res.err.value] else [];
    }
  }
}
