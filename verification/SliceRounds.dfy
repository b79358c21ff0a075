// Every round of the fill loop keeps the invariant, so every plan satisfies it.
module SliceRounds {
  import opened Common
  import opened Model
  import opened Ports
  import opened SliceSpec
  import opened SliceInvariant

  // A chunk is never empty, and takes that many IPs out of todo.
  lemma ChunkCounts(cfg: Config, st: PlanState, chunk: seq<string>)
    requires ValidConfig(cfg) && IsChunk(cfg, st, chunk)
    ensures 0 < |chunk| <= |st.todo|
    ensures |st.todo - ToSet(chunk)| == |st.todo| - |chunk|
    ensures forall ip :: ip in chunk ==> ip in cfg.want
  {
    SetSize(chunk);
    assert ToSet(chunk) <= st.todo;
    assert st.todo == (st.todo - ToSet(chunk)) + ToSet(chunk);
  }

  lemma {:induction false} SetSize(chunk: seq<string>)
    requires NoDuplicates(chunk)
    ensures |ToSet(chunk)| == |chunk|
  {
    if chunk != [] {
      var init, last := chunk[..|chunk| - 1], chunk[|chunk| - 1];
      SetSize(init);
      assert chunk == init + [last];
      assert ToSet(chunk) == ToSet(init) + {last};
    }
  }

  lemma StepBalanced(cfg: Config, st: PlanState, chunk: seq<string>, ip: string)
    requires ValidConfig(cfg) && BalancedAt(cfg, st, ip) && IsChunk(cfg, st, chunk)
    ensures BalancedAt(cfg, Step(cfg, st, chunk), ip)
  {
    var o := Open(cfg, st);
    OpenBalanced(cfg, st, ip);
    ChunkCounts(cfg, st, chunk);
    var v := TargetSlice(o.st, o.target);
    FillBalanced(cfg, o.st, o.target, chunk, if o.needsPortUpdate then ToEndpointPorts(cfg.ports) else v.ports, ip);
  }

  lemma StepPartitioned(cfg: Config, n: nat, st: PlanState, chunk: seq<string>, o: nat)
    requires ValidConfig(cfg) && PartitionedAt(n, st, o) && IsChunk(cfg, st, chunk)
    ensures PartitionedAt(n, Step(cfg, st, chunk), o)
  {
    OpenPartitioned(cfg, n, st, o);
    var op := Open(cfg, st);
    ChunkCounts(cfg, st, chunk);
    var v := TargetSlice(op.st, op.target);
    var filled := SliceVal(v.endpoints + Records(cfg, chunk), if op.needsPortUpdate then ToEndpointPorts(cfg.ports) else v.ports);
    if op.target.InUpdate? {
      ListedPut(op.st.update, op.target.index, filled, o);
    }
  }

  // What a slice opened for filling looks like: the records it kept, then fresh ones.
  ghost predicate Fillable(cfg: Config, cur: seq<SliceVal>, t: Tracked) {
    && t.origin < |cur|
    && var kept := KeptAt(cfg, cur, t.origin); var es := t.slice.endpoints;
    && kept <= es && |es| < cfg.max
    && forall i :: |kept| <= i < |es| ==> IsRecord(cfg, es[i]) && es[i].address !in AllAddresses(cur)
  }

  lemma FillableFilled(cfg: Config, cur: seq<SliceVal>, t: Tracked, chunk: seq<string>, ports: seq<EndpointPort>)
    requires ValidConfig(cfg) && Fillable(cfg, cur, t)
    requires chunk != [] && |t.slice.endpoints| + |chunk| <= cfg.max
    requires forall ip :: ip in chunk ==> ip in cfg.want && ip !in AllAddresses(cur)
    requires PortsMatch(cfg, SliceVal([], ports))
    ensures GoodUpdate(cfg, cur, t.(slice := SliceVal(t.slice.endpoints + Records(cfg, chunk), ports)))
  {
    var es := t.slice.endpoints + Records(cfg, chunk);
    var kept := KeptAt(cfg, cur, t.origin);
    assert forall i :: |t.slice.endpoints| <= i < |es| ==> es[i] == Records(cfg, chunk)[i - |t.slice.endpoints|];
    assert |es| > |kept|;
  }

  lemma GoodIsFillable(cfg: Config, cur: seq<SliceVal>, t: Tracked)
    requires GoodUpdate(cfg, cur, t) || GoodUnmodified(cfg, cur, t)
    requires |t.slice.endpoints| < cfg.max
    ensures Fillable(cfg, cur, t) && PortsMatch(cfg, t.slice)
  {
  }

  lemma DeletedIsFillable(cfg: Config, cur: seq<SliceVal>, t: Tracked)
    requires ValidConfig(cfg) && GoodDelete(cfg, cur, t)
    ensures Fillable(cfg, cur, Tracked(t.origin, t.slice.(endpoints := [])))
  {
  }

  // Whichever update slot getOrCreateUnfilledEndpointSlice returns, it is fillable and its ports end up right.
  ghost predicate OpensFillable(cfg: Config, cur: seq<SliceVal>, o: Opened)
    requires HasTarget(o.st, o.target)
  {
    o.target.InUpdate? ==>
      && Fillable(cfg, cur, o.st.update[o.target.index])
      && (!o.needsPortUpdate ==> PortsMatch(cfg, o.st.update[o.target.index].slice))
  }

  lemma OpenedFillable(cfg: Config, cur: seq<SliceVal>, st: PlanState)
    requires ValidConfig(cfg) && Sound(cfg, cur, st) && st.todo != {}
    ensures OpensFillable(cfg, cur, Open(cfg, st))
  {
    var u := FirstShort(st.update, cfg.max - 1);
    var n := FirstShort(st.unmodified, cfg.max - |st.todo|);
    if u < |st.update| {
      UpdateOpensFillable(cfg, cur, st, u);
    } else if st.delete != [] {
      DeletedIsFillable(cfg, cur, st.delete[0]);
    } else if n < |st.unmodified| {
      AbsorbOpensFillable(cfg, cur, st, n);
    }
  }

  lemma UpdateOpensFillable(cfg: Config, cur: seq<SliceVal>, st: PlanState, u: nat)
    requires forall t :: t in st.update ==> GoodUpdate(cfg, cur, t)
    requires u < |st.update| && |st.update[u].slice.endpoints| < cfg.max
    ensures OpensFillable(cfg, cur, Opened(st, InUpdate(u), false))
  {
    GoodIsFillable(cfg, cur, st.update[u]);
  }

  lemma AbsorbOpensFillable(cfg: Config, cur: seq<SliceVal>, st: PlanState, n: nat)
    requires forall t :: t in st.unmodified ==> GoodUnmodified(cfg, cur, t)
    requires n < |st.unmodified| && |st.unmodified[n].slice.endpoints| < cfg.max
    ensures OpensFillable(cfg, cur, Opened(Absorb(st, n), InUpdate(|st.update|), false))
  {
    GoodIsFillable(cfg, cur, st.unmodified[n]);
  }

  lemma OpenKeepsOthers(cfg: Config, st: PlanState)
    ensures var o := Open(cfg, st);
            && (forall t :: t in o.st.unmodified ==> t in st.unmodified)
            && (forall t :: t in o.st.delete ==> t in st.delete)
            && (forall i :: 0 <= i < |o.st.update| && o.target != InUpdate(i) ==> o.st.update[i] in st.update)
            && (forall i :: 0 <= i < |o.st.create| && o.target != InCreate(i) ==> o.st.create[i] in st.create)
            && (o.target.InCreate? ==> TargetSlice(o.st, o.target) == SliceVal([], []) && o.needsPortUpdate)
  {
  }

  lemma StepUpdateGood(cfg: Config, cur: seq<SliceVal>, st: PlanState, chunk: seq<string>)
    requires ValidConfig(cfg) && st.todo != {} && Sound(cfg, cur, st) && IsChunk(cfg, st, chunk)
    ensures forall t :: t in Step(cfg, st, chunk).update ==> GoodUpdate(cfg, cur, t)
  {
    var o := Open(cfg, st);
    OpenKeepsOthers(cfg, st);
    if o.target.InUpdate? {
      OpenedFillable(cfg, cur, st);
      ChunkCounts(cfg, st, chunk);
      WrittenPortsMatch(cfg.ports);
      var t := o.st.update[o.target.index];
      FillableFilled(cfg, cur, t, chunk, if o.needsPortUpdate then ToEndpointPorts(cfg.ports) else t.slice.ports);
    }
  }

  lemma StepCreateGood(cfg: Config, cur: seq<SliceVal>, st: PlanState, chunk: seq<string>)
    requires ValidConfig(cfg) && Sound(cfg, cur, st) && IsChunk(cfg, st, chunk)
    ensures forall v :: v in Step(cfg, st, chunk).create ==> GoodCreate(cfg, v)
  {
    OpenKeepsOthers(cfg, st);
    ChunkCounts(cfg, st, chunk);
    RecordsFacts(cfg, chunk);
    WrittenPortsMatch(cfg.ports);
  }

  lemma StepCreatedInOrder(cfg: Config, st: PlanState, chunk: seq<string>)
    requires ValidConfig(cfg) && CreatedInOrder(cfg, st) && IsChunk(cfg, st, chunk)
    ensures CreatedInOrder(cfg, Step(cfg, st, chunk))
  {
    ChunkCounts(cfg, st, chunk);
  }

  lemma StepSound(cfg: Config, cur: seq<SliceVal>, st: PlanState, chunk: seq<string>)
    requires ValidConfig(cfg) && Sound(cfg, cur, st) && IsChunk(cfg, st, chunk)
    ensures Sound(cfg, cur, Step(cfg, st, chunk))
  {
    var st' := Step(cfg, st, chunk);
    forall ip ensures BalancedAt(cfg, st', ip) {
      assert BalancedAt(cfg, st, ip);
      StepBalanced(cfg, st, chunk, ip);
    }
    forall o: nat ensures PartitionedAt(|cur|, st', o) {
      assert PartitionedAt(|cur|, st, o);
      StepPartitioned(cfg, |cur|, st, chunk, o);
    }
    OpenKeepsOthers(cfg, st);
    StepUpdateGood(cfg, cur, st, chunk);
    StepCreateGood(cfg, cur, st, chunk);
    StepCreatedInOrder(cfg, st, chunk);
  }

  lemma {:induction false} RunSound(cfg: Config, cur: seq<SliceVal>, chunks: seq<seq<string>>)
    requires ValidConfig(cfg) && IsRun(cfg, cur, chunks)
    ensures Sound(cfg, cur, Run(cfg, cur, chunks))
  {
    if chunks == [] {
      TrimSound(cfg, cur);
    } else {
      RunSound(cfg, cur, chunks[..|chunks| - 1]);
      StepSound(cfg, cur, Run(cfg, cur, chunks[..|chunks| - 1]), chunks[|chunks| - 1]);
    }
  }
}
