// How many slices a plan creates, how full they are, and that none of it depends on the map order.
module SlicePacking {
  import opened Common
  import opened Model
  import opened Ports
  import opened SliceSpec
  import opened SliceInvariant
  import opened SliceRounds

  // ---- Conservation ----

  // Each old slice ends in exactly one of Update, Delete and Unmodified; deleted and unmodified ones are untouched,
  // updated ones did change, and nothing is created while a slice is deleted.
  lemma PlanConserves(cfg: Config, cur: seq<SliceVal>, chunks: seq<seq<string>>)
    requires ValidConfig(cfg) && IsPlan(cfg, cur, chunks)
    ensures var st := Run(cfg, cur, chunks);
            && Partitioned(|cur|, st)
            && (forall t :: t in st.unmodified || t in st.delete ==> t.origin < |cur| && t.slice == cur[t.origin])
            && (forall t :: t in st.update ==> t.origin < |cur| && t.slice != cur[t.origin])
            && (st.create != [] ==> st.delete == [])
  {
    RunSound(cfg, cur, chunks);
    var st := Run(cfg, cur, chunks);
    forall t | t in st.update ensures t.origin < |cur| && t.slice != cur[t.origin] {
      UpdatedDiffers(cfg, cur, t);
    }
  }

  lemma UpdatedDiffers(cfg: Config, cur: seq<SliceVal>, t: Tracked)
    requires GoodUpdate(cfg, cur, t)
    ensures t.slice != cur[t.origin]
  {
    var kept, es := KeptAt(cfg, cur, t.origin), t.slice.endpoints;
    if es != kept {
      var e := es[|es| - 1];
      assert e.address !in AllAddresses(cur);
      assert cur[t.origin] in cur;
    }
  }

  // An address is not moved: the first old slice that has a desired IP still has it afterwards.
  lemma AddressStaysPut(cfg: Config, cur: seq<SliceVal>, chunks: seq<seq<string>>, o: nat, ip: string) returns (t: Tracked)
    requires ValidConfig(cfg) && IsPlan(cfg, cur, chunks)
    requires o < |cur| && ip in cfg.want && ip in AddressSet(cur[o].endpoints) && ip !in AllAddresses(cur[..o])
    ensures var st := Run(cfg, cur, chunks); t in st.update || t in st.unmodified
    ensures t.origin == o && ip in AddressSet(t.slice.endpoints)
  {
    RunSound(cfg, cur, chunks);
    var st := Run(cfg, cur, chunks);
    assert PartitionedAt(|cur|, st, o);
    KeptHolds(cur[o].endpoints, cfg.want.Keys - AllAddresses(cur[..o]), ip);
    var e := InWhenOccurs(KeptAt(cfg, cur, o), ip);
    if Listed(st.update, o) > 0 {
      t := ListedWitness(st.update, o);
    } else if Listed(st.unmodified, o) > 0 {
      t := ListedWitness(st.unmodified, o);
    } else {
      var d := ListedWitness(st.delete, o);
      t := d;
    }
    assert e in t.slice.endpoints;
  }

  lemma {:induction false} ListedWitness(ts: seq<Tracked>, o: nat) returns (t: Tracked)
    requires Listed(ts, o) > 0
    ensures t in ts && t.origin == o
  {
    if ts[|ts| - 1].origin == o {
      t := ts[|ts| - 1];
    } else {
      t := ListedWitness(ts[..|ts| - 1], o);
    }
  }

  // ---- Sizes ----

  // No surviving slice is over the maximum, except an old one that only kept records it already had.
  lemma SizesBounded(cfg: Config, cur: seq<SliceVal>, chunks: seq<seq<string>>)
    requires ValidConfig(cfg) && IsPlan(cfg, cur, chunks)
    ensures var st := Run(cfg, cur, chunks);
            && (forall t :: t in st.update || t in st.unmodified ==>
                  t.origin < |cur| && (|t.slice.endpoints| <= cfg.max || t.slice.endpoints == KeptAt(cfg, cur, t.origin)))
            && (forall v :: v in st.create ==> 0 < |v.endpoints| <= cfg.max)
            && (forall i :: 0 <= i < |st.create| - 1 ==> |st.create[i].endpoints| == cfg.max)
  {
    RunSound(cfg, cur, chunks);
  }

  // Room left in the slices being updated, and the largest room in an unmodified one.
  function Room(max: int, ts: seq<Tracked>): nat {
    if ts == [] then 0
    else Room(max, ts[..|ts| - 1]) + RoomIn(max, ts[|ts| - 1].slice)
  }

  function RoomIn(max: int, v: SliceVal): nat {
    if |v.endpoints| < max then max - |v.endpoints| else 0
  }

  function BestRoom(max: int, ts: seq<Tracked>): nat {
    if ts == [] then 0
    else
      var rest := BestRoom(max, ts[..|ts| - 1]);
      if RoomIn(max, ts[|ts| - 1].slice) > rest then RoomIn(max, ts[|ts| - 1].slice) else rest
  }

  // Unplaced IPs that do not fit in the updated slices nor in the ones that can be reused.
  function Excess(cfg: Config, st: PlanState): int {
    |st.todo| - Room(cfg.max, st.update) - cfg.max * |st.delete|
  }

  // New slices needed until the excess fits in the best unmodified slice.
  function Needed(max: int, excess: int, best: nat): nat
    requires max >= 1
    decreases excess - best
  {
    if excess <= best then 0 else 1 + Needed(max, excess - max, best)
  }

  function StillNeeded(cfg: Config, st: PlanState): nat
    requires ValidConfig(cfg)
  {
    Needed(cfg.max, Excess(cfg, st), BestRoom(cfg.max, st.unmodified))
  }

  lemma {:induction false} RoomConcat(max: int, a: seq<Tracked>, b: seq<Tracked>)
    ensures Room(max, a + b) == Room(max, a) + Room(max, b)
  {
    if b == [] {
      assert a + b == a;
    } else {
      assert (a + b)[..|a + b| - 1] == a + b[..|b| - 1];
      RoomConcat(max, a, b[..|b| - 1]);
    }
  }

  lemma RoomPut(max: int, ts: seq<Tracked>, i: nat, v: SliceVal)
    requires i < |ts|
    ensures Room(max, ts[i := ts[i].(slice := v)]) + RoomIn(max, ts[i].slice) == Room(max, ts) + RoomIn(max, v)
  {
    var a, b, t := ts[..i], ts[i + 1..], ts[i].(slice := v);
    assert ts == a + [ts[i]] + b && ts[i := t] == a + [t] + b;
    RoomConcat(max, a + [ts[i]], b);
    RoomConcat(max, a + [t], b);
    assert (a + [ts[i]])[..|a|] == a && (a + [t])[..|a|] == a;
  }

  lemma {:induction false} NoRoom(max: int, ts: seq<Tracked>)
    requires forall t :: t in ts ==> |t.slice.endpoints| >= max
    ensures Room(max, ts) == 0
  {
    if ts != [] {
      NoRoom(max, ts[..|ts| - 1]);
    }
  }

  // Slices that cannot take k more have less room than k; one that can has at least that much.
  lemma {:induction false} BestRoomBound(max: int, ts: seq<Tracked>, k: int)
    requires k > 0
    ensures BestRoom(max, ts) >= k <==> exists t :: t in ts && |t.slice.endpoints| + k <= max
  {
    if ts != [] {
      var init, last := ts[..|ts| - 1], ts[|ts| - 1];
      assert ts == init + [last];
      BestRoomBound(max, init, k);
    }
  }

  lemma FilledRoom(cfg: Config, v: SliceVal, chunk: seq<string>, ports: seq<EndpointPort>)
    requires forall ip :: ip in chunk ==> ip in cfg.want
    requires |v.endpoints| + |chunk| <= cfg.max
    ensures RoomIn(cfg.max, SliceVal(v.endpoints + Records(cfg, chunk), ports)) == RoomIn(cfg.max, v) - |chunk|
  {
  }

  // Filling a slice that is being updated, or one marked for deletion, leaves the excess as it is.
  lemma FillKeepsExcess(cfg: Config, st: PlanState, i: nat, v: SliceVal, chunk: seq<string>, ports: seq<EndpointPort>)
    requires i < |st.update| && v == st.update[i].slice && |v.endpoints| + |chunk| <= cfg.max
    requires (forall ip :: ip in chunk ==> ip in cfg.want) && |st.todo - ToSet(chunk)| == |st.todo| - |chunk|
    ensures var filled := SliceVal(v.endpoints + Records(cfg, chunk), ports);
            Excess(cfg, SetTarget(st, InUpdate(i), filled).(todo := st.todo - ToSet(chunk))) == Excess(cfg, st)
  {
    var filled := SliceVal(v.endpoints + Records(cfg, chunk), ports);
    RoomPut(cfg.max, st.update, i, filled);
    FilledRoom(cfg, v, chunk, ports);
  }

  lemma ReuseKeepsExcess(cfg: Config, st: PlanState)
    requires ValidConfig(cfg) && st.delete != []
    ensures Excess(cfg, Reuse(st)) == Excess(cfg, st)
  {
    var reused := Tracked(st.delete[0].origin, st.delete[0].slice.(endpoints := []));
    RoomConcat(cfg.max, st.update, [reused]);
    assert [reused][..0] == [];
    assert Room(cfg.max, [reused]) == cfg.max;
    assert cfg.max * (|st.delete| - 1) == cfg.max * |st.delete| - cfg.max;
  }

  // A round creates a slice exactly when one more is needed.
  lemma StepCounts(cfg: Config, st: PlanState, chunk: seq<string>)
    requires ValidConfig(cfg) && IsChunk(cfg, st, chunk)
    ensures |Step(cfg, st, chunk).create| + StillNeeded(cfg, Step(cfg, st, chunk)) == |st.create| + StillNeeded(cfg, st)
  {
    if FirstShort(st.update, cfg.max - 1) < |st.update| {
      UpdateCounts(cfg, st, chunk);
    } else if st.delete != [] {
      ReuseCounts(cfg, st, chunk);
    } else {
      NoRoom(cfg.max, st.update);
      var n := FirstShort(st.unmodified, cfg.max - |st.todo|);
      FitsWhenFound(cfg.max, st.unmodified, |st.todo|);
      if n < |st.unmodified| {
        AbsorbCounts(cfg, st, n, chunk);
      } else {
        NewCounts(cfg, st, chunk);
      }
    }
  }

  lemma FitsWhenFound(max: int, ts: seq<Tracked>, k: int)
    requires k > 0
    ensures FirstShort(ts, max - k) < |ts| <==> BestRoom(max, ts) >= k
  {
    BestRoomBound(max, ts, k);
    if t :| t in ts && |t.slice.endpoints| + k <= max {
      var j :| 0 <= j < |ts| && ts[j] == t;
    }
  }

  lemma UpdateCounts(cfg: Config, st: PlanState, chunk: seq<string>)
    requires ValidConfig(cfg) && IsChunk(cfg, st, chunk) && FirstShort(st.update, cfg.max - 1) < |st.update|
    ensures Step(cfg, st, chunk).create == st.create && StillNeeded(cfg, Step(cfg, st, chunk)) == StillNeeded(cfg, st)
  {
    var u := FirstShort(st.update, cfg.max - 1);
    ChunkCounts(cfg, st, chunk);
    FillKeepsExcess(cfg, st, u, st.update[u].slice, chunk, st.update[u].slice.ports);
  }

  lemma ReuseCounts(cfg: Config, st: PlanState, chunk: seq<string>)
    requires ValidConfig(cfg) && IsChunk(cfg, st, chunk) && st.delete != []
    requires Open(cfg, st) == Opened(Reuse(st), InUpdate(|st.update|), true)
    ensures Step(cfg, st, chunk).create == st.create && StillNeeded(cfg, Step(cfg, st, chunk)) == StillNeeded(cfg, st)
  {
    ChunkCounts(cfg, st, chunk);
    ReuseKeepsExcess(cfg, st);
    FillKeepsExcess(cfg, Reuse(st), |st.update|, Reuse(st).update[|st.update|].slice, chunk, ToEndpointPorts(cfg.ports));
  }

  lemma AbsorbCounts(cfg: Config, st: PlanState, n: nat, chunk: seq<string>)
    requires ValidConfig(cfg) && IsChunk(cfg, st, chunk)
    requires n < |st.unmodified| && Open(cfg, st).st == Absorb(st, n) && |st.unmodified[n].slice.endpoints| + |st.todo| <= cfg.max
    requires Open(cfg, st).target == InUpdate(|st.update|)
    requires st.delete == [] && Room(cfg.max, st.update) == 0 && BestRoom(cfg.max, st.unmodified) >= |st.todo|
    ensures Step(cfg, st, chunk).create == st.create
    ensures StillNeeded(cfg, Step(cfg, st, chunk)) == 0 && StillNeeded(cfg, st) == 0
  {
    ChunkCounts(cfg, st, chunk);
    assert |Step(cfg, st, chunk).todo| == 0;
  }

  lemma NewCounts(cfg: Config, st: PlanState, chunk: seq<string>)
    requires ValidConfig(cfg) && IsChunk(cfg, st, chunk) && Open(cfg, st) == Opened(AddNew(st), InCreate(|st.create|), true)
    requires st.delete == [] && Room(cfg.max, st.update) == 0 && BestRoom(cfg.max, st.unmodified) < |st.todo|
    ensures |Step(cfg, st, chunk).create| == |st.create| + 1
    ensures StillNeeded(cfg, st) == 1 + StillNeeded(cfg, Step(cfg, st, chunk))
  {
    ChunkCounts(cfg, st, chunk);
    var st', best := Step(cfg, st, chunk), BestRoom(cfg.max, st.unmodified);
    assert cfg.max * |st.delete| == 0;
    assert Excess(cfg, st) == |st.todo| && Excess(cfg, st') == |st'.todo| == |st.todo| - Min(cfg.max, |st.todo|);
    assert st'.unmodified == st.unmodified;
    assert Needed(cfg.max, |st.todo|, best) == 1 + Needed(cfg.max, |st.todo| - cfg.max, best);
  }

  // The number of slices a plan creates is fixed by the trimmed state alone.
  lemma {:induction false} RunCounts(cfg: Config, cur: seq<SliceVal>, chunks: seq<seq<string>>)
    requires ValidConfig(cfg) && IsRun(cfg, cur, chunks)
    ensures |Run(cfg, cur, chunks).create| + StillNeeded(cfg, Run(cfg, cur, chunks)) == StillNeeded(cfg, Trim(cfg, cur))
  {
    if chunks == [] {
      TrimTodo(cfg, cur);
    } else {
      RunCounts(cfg, cur, chunks[..|chunks| - 1]);
      StepCounts(cfg, Run(cfg, cur, chunks[..|chunks| - 1]), chunks[|chunks| - 1]);
    }
  }

  lemma DoneNeedsNone(cfg: Config, st: PlanState)
    requires ValidConfig(cfg) && st.todo == {}
    ensures StillNeeded(cfg, st) == 0
  {
    assert cfg.max * |st.delete| >= 0;
  }

  lemma CreatedExactly(cfg: Config, cur: seq<SliceVal>, chunks: seq<seq<string>>)
    requires ValidConfig(cfg) && IsPlan(cfg, cur, chunks)
    ensures |Run(cfg, cur, chunks).create| == StillNeeded(cfg, Trim(cfg, cur))
  {
    RunCounts(cfg, cur, chunks);
    DoneNeedsNone(cfg, Run(cfg, cur, chunks));
  }

  // c == ceil(a / b)
  predicate IsCeil(c: nat, a: int, b: int) {
    if a <= 0 then c == 0 else b * (c - 1) < a <= b * c
  }

  lemma {:induction false} NeededIsCeil(max: int, excess: int, best: nat)
    requires max >= 1
    ensures IsCeil(Needed(max, excess, best), excess - best, max)
    decreases excess - best
  {
    if excess > best {
      NeededIsCeil(max, excess - max, best);
      var c := Needed(max, excess - max, best);
      assert max * (c + 1) == max * c + max;
      if c > 0 { assert max * (c - 1) == max * c - max; }
    }
  }

  // At most ceil(U / M) slices are created for U unplaced IPs, and exactly that many when there are no old slices.
  lemma CreatedAtMostCeil(cfg: Config, cur: seq<SliceVal>, chunks: seq<seq<string>>, c: nat)
    requires ValidConfig(cfg) && IsPlan(cfg, cur, chunks) && IsCeil(c, |Trim(cfg, cur).todo|, cfg.max)
    ensures |Run(cfg, cur, chunks).create| <= c
    ensures cur == [] ==> Trim(cfg, cur).todo == cfg.want.Keys && |Run(cfg, cur, chunks).create| == c
  {
    CreatedExactly(cfg, cur, chunks);
    TrimmedNeed(cfg, Trim(cfg, cur), c);
    if cur == [] {
      TrimTodo(cfg, cur);
      EmptyNeed(cfg, Trim(cfg, cur), c);
    }
  }

  lemma TrimmedNeed(cfg: Config, st: PlanState, c: nat)
    requires ValidConfig(cfg) && IsCeil(c, |st.todo|, cfg.max)
    ensures StillNeeded(cfg, st) <= c
  {
    assert cfg.max * |st.delete| >= 0;
    NeededMonotone(cfg.max, Excess(cfg, st), |st.todo|, BestRoom(cfg.max, st.unmodified), 0);
    NeededIsCeil(cfg.max, |st.todo|, 0);
    CeilUnique(Needed(cfg.max, |st.todo|, 0), c, |st.todo|, cfg.max);
  }

  lemma EmptyNeed(cfg: Config, st: PlanState, c: nat)
    requires ValidConfig(cfg) && IsCeil(c, |st.todo|, cfg.max)
    requires st.update == [] && st.delete == [] && st.unmodified == []
    ensures StillNeeded(cfg, st) == c
  {
    assert cfg.max * |st.delete| == 0;
    NeededIsCeil(cfg.max, |st.todo|, 0);
    CeilUnique(Needed(cfg.max, |st.todo|, 0), c, |st.todo|, cfg.max);
  }

  lemma CeilUnique(c: nat, d: nat, a: int, b: int)
    requires b >= 1 && IsCeil(c, a, b) && IsCeil(d, a, b)
    ensures c == d
  {
    MulMonotone(b, c, d - 1);
    MulMonotone(b, d, c - 1);
  }

  lemma MulMonotone(b: int, x: int, y: int)
    requires b >= 1
    ensures x <= y ==> b * x <= b * y
  {
  }

  lemma {:induction false} NeededMonotone(max: int, a: int, b: int, f: nat, g: nat)
    requires max >= 1 && a - f <= b - g
    ensures Needed(max, a, f) <= Needed(max, b, g)
    decreases a - f
  {
    if a > f {
      NeededMonotone(max, a - max, b - max, f, g);
    }
  }

  // ---- Order independence ----

  // What is left of a plan when addresses are forgotten: which slice is where, and how long it is.
  ghost predicate SameSizes(a: seq<Tracked>, b: seq<Tracked>) {
    |a| == |b| && forall i :: 0 <= i < |a| ==> a[i].origin == b[i].origin && |a[i].slice.endpoints| == |b[i].slice.endpoints|
  }

  ghost predicate SameShape(a: PlanState, b: PlanState) {
    && SameSizes(a.update, b.update) && SameSizes(a.unmodified, b.unmodified)
    && |a.delete| == |b.delete| && (forall i :: 0 <= i < |a.delete| ==> a.delete[i].origin == b.delete[i].origin)
    && |a.create| == |b.create|
    && (forall i :: 0 <= i < |a.create| ==> |a.create[i].endpoints| == |b.create[i].endpoints|)
    && |a.todo| == |b.todo|
  }

  lemma {:induction false} FirstShortSame(a: seq<Tracked>, b: seq<Tracked>, limit: int)
    requires SameSizes(a, b)
    ensures FirstShort(a, limit) == FirstShort(b, limit)
  {
    if a != [] {
      FirstShortSame(a[1..], b[1..], limit);
    }
  }

  lemma OpenSame(cfg: Config, a: PlanState, b: PlanState)
    requires SameShape(a, b)
    ensures SameShape(Open(cfg, a).st, Open(cfg, b).st) && Open(cfg, a).target == Open(cfg, b).target
  {
    FirstShortSame(a.update, b.update, cfg.max - 1);
    if FirstShort(a.update, cfg.max - 1) == |a.update| {
      if a.delete != [] {
        ReuseSame(a, b);
      } else {
        OpenUntouchedSame(cfg, a, b);
      }
    }
  }

  lemma OpenUntouchedSame(cfg: Config, a: PlanState, b: PlanState)
    requires SameShape(a, b) && a.delete == []
    requires FirstShort(a.update, cfg.max - 1) == |a.update| && FirstShort(b.update, cfg.max - 1) == |b.update|
    ensures SameShape(Open(cfg, a).st, Open(cfg, b).st) && Open(cfg, a).target == Open(cfg, b).target
  {
    FirstShortSame(a.unmodified, b.unmodified, cfg.max - |a.todo|);
    var n := FirstShort(a.unmodified, cfg.max - |a.todo|);
    OpenIs(cfg, a, |a.update|, n);
    OpenIs(cfg, b, |a.update|, n);
    if n < |a.unmodified| {
      AbsorbSame(a, b, n);
    } else {
      AddNewSame(a, b);
    }
  }

  lemma AddNewSame(a: PlanState, b: PlanState)
    requires SameShape(a, b)
    ensures SameShape(AddNew(a), AddNew(b))
  {
  }

  lemma ReuseSame(a: PlanState, b: PlanState)
    requires SameShape(a, b) && a.delete != []
    ensures SameShape(Reuse(a), Reuse(b))
  {
  }

  lemma AbsorbSame(a: PlanState, b: PlanState, n: nat)
    requires SameShape(a, b) && n < |a.unmodified|
    ensures SameShape(Absorb(a, n), Absorb(b, n))
  {
  }

  lemma FillSame(a: PlanState, b: PlanState, target: Target, v: SliceVal, w: SliceVal, x: set<string>, y: set<string>)
    requires SameShape(a, b) && HasTarget(a, target) && HasTarget(b, target)
    requires |v.endpoints| == |w.endpoints| && |x| == |y|
    ensures SameShape(SetTarget(a, target, v).(todo := x), SetTarget(b, target, w).(todo := y))
  {
  }

  lemma StepSame(cfg: Config, a: PlanState, b: PlanState, x: seq<string>, y: seq<string>)
    requires ValidConfig(cfg) && SameShape(a, b) && IsChunk(cfg, a, x) && IsChunk(cfg, b, y)
    ensures SameShape(Step(cfg, a, x), Step(cfg, b, y))
  {
    OpenSame(cfg, a, b);
    ChunkCounts(cfg, a, x);
    ChunkCounts(cfg, b, y);
    var o, p := Open(cfg, a), Open(cfg, b);
    var v, w := TargetSlice(o.st, o.target), TargetSlice(p.st, p.target);
    var ports := ToEndpointPorts(cfg.ports);
    FillSame(o.st, p.st, o.target,
             SliceVal(v.endpoints + Records(cfg, x), if o.needsPortUpdate then ports else v.ports),
             SliceVal(w.endpoints + Records(cfg, y), if p.needsPortUpdate then ports else w.ports),
             a.todo - ToSet(x), b.todo - ToSet(y));
  }

  lemma {:induction false} RunsSame(cfg: Config, cur: seq<SliceVal>, xs: seq<seq<string>>, ys: seq<seq<string>>)
    requires ValidConfig(cfg) && IsRun(cfg, cur, xs) && IsRun(cfg, cur, ys) && |xs| == |ys|
    ensures SameShape(Run(cfg, cur, xs), Run(cfg, cur, ys))
  {
    if xs != [] {
      var n := |xs| - 1;
      RunsSame(cfg, cur, xs[..n], ys[..n]);
      StepSame(cfg, Run(cfg, cur, xs[..n]), Run(cfg, cur, ys[..n]), xs[n], ys[n]);
    }
  }

  lemma {:induction false} RunPrefix(cfg: Config, cur: seq<SliceVal>, chunks: seq<seq<string>>, n: nat)
    requires IsRun(cfg, cur, chunks) && n < |chunks|
    ensures IsRun(cfg, cur, chunks[..n]) && Run(cfg, cur, chunks[..n]).todo != {}
  {
    if n < |chunks| - 1 {
      RunPrefix(cfg, cur, chunks[..|chunks| - 1], n);
      assert chunks[..|chunks| - 1][..n] == chunks[..n];
    }
  }

  // Ranging over the map in another order changes which address lands where, but not which slices are
  // updated, deleted, created or left alone, nor how long any of them gets.
  lemma OrderIndependent(cfg: Config, cur: seq<SliceVal>, xs: seq<seq<string>>, ys: seq<seq<string>>)
    requires ValidConfig(cfg) && IsPlan(cfg, cur, xs) && IsPlan(cfg, cur, ys)
    ensures SameShape(Run(cfg, cur, xs), Run(cfg, cur, ys))
  {
    if |xs| < |ys| {
      RunPrefix(cfg, cur, ys, |xs|);
      RunsSame(cfg, cur, xs, ys[..|xs|]);
    } else if |ys| < |xs| {
      RunPrefix(cfg, cur, xs, |ys|);
      RunsSame(cfg, cur, xs[..|ys|], ys);
    } else {
      RunsSame(cfg, cur, xs, ys);
    }
  }
}
