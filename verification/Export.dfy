// handleUpdate of pkg/controllers/multicluster/serviceexport_controller.go, run by any number of clusters
// against the instances of one shared service. An event is one step of one cluster; they interleave freely.
module Export {
  import opened Common
  import opened Model
  import opened Codec
  import opened Diff
  import opened Registry

  // One handleUpdate: the endpoints it read, those it wants, and the difference it applies.
  datatype Job = Job(current: seq<Endpoint>, desired: seq<Endpoint>, changes: Changes) {
    // merge creates and updates
    function Upserts(): seq<Endpoint> {
      changes.create + changes.update
    }
  }

  datatype Phase = Upserting | Deleting | Finished | Failed

  // A submitted operation of the poller.
  datatype Op = Pending | Succeeded | Errored

  // log lists the endpoints registered so far, gone the ids deregistered so far.
  datatype Proc = Idle | Working(phase: Phase, job: Job, ops: seq<Op>, log: seq<Endpoint>, gone: set<string>)

  datatype State = State(reg: Instances, procs: map<string, Proc>)

  // An operation that succeeds was applied; one that fails may have been applied or not.
  datatype Event =
    | Plan(c: string, job: Job)
    | Upsert(c: string, k: nat, applied: bool, ok: bool)
    | UpsertsDone(c: string)
    | Deregister(c: string, k: nat, applied: bool, ok: bool)
    | DeletesDone(c: string)
    | Abort(c: string)

  predicate AllSucceeded(ops: seq<Op>) {
    forall k :: 0 <= k < |ops| ==> ops[k] == Succeeded
  }

  // An error comes after every operation has settled, or before any was submitted.
  predicate MayFail(ops: seq<Op>) {
    || (forall k :: 0 <= k < |ops| ==> ops[k] == Pending)
    || ((forall k :: 0 <= k < |ops| ==> ops[k] != Pending) && exists k :: 0 <= k < |ops| && ops[k] == Errored)
  }

  function Settled(applied: bool, ok: bool): Op {
    if ok then Succeeded else Errored
  }

  // home says which cluster may use an id. What a cluster reads of its own instances is what is registered.
  ghost predicate GoodJob(home: string -> string, reg: Instances, setId: string, c: string, job: Job) {
    && Lists(job.current, Own(reg, setId, c))
    && (forall e :: e in job.desired ==> home(e.id) == c && Exportable(e, setId, c))
    && IsDiff(job.changes, job.current, job.desired)
  }

  predicate Ready(p: Proc, ev: Event) {
    match ev
    case Plan(_, _) => p.Idle? || p.phase.Finished? || p.phase.Failed?
    case Upsert(_, k, applied, ok) =>
      p.Working? && p.phase.Upserting? && k < |p.ops| && p.ops[k] == Pending && k < |p.job.Upserts()| && (ok ==> applied)
    case UpsertsDone(_) => p.Working? && p.phase.Upserting? && AllSucceeded(p.ops)
    case Deregister(_, k, applied, ok) =>
      p.Working? && p.phase.Deleting? && k < |p.ops| && p.ops[k] == Pending && k < |p.job.changes.delete| && (ok ==> applied)
    case DeletesDone(_) => p.Working? && p.phase.Deleting? && AllSucceeded(p.ops)
    case Abort(_) => p.Working? && (p.phase.Upserting? || p.phase.Deleting?) && MayFail(p.ops)
  }

  ghost predicate Enabled(home: string -> string, setId: string, s: State, ev: Event) {
    && ev.c in s.procs
    && Ready(s.procs[ev.c], ev)
    && (ev.Plan? ==> GoodJob(home, s.reg, setId, ev.c, ev.job))
  }

  function Submitted(n: nat): (ops: seq<Op>)
    ensures |ops| == n && forall k :: 0 <= k < n ==> ops[k] == Pending
  {
    seq(n, _ => Pending)
  }

  // What the event does to the registry.
  function EffectOf(p: Proc, ev: Event): Effect {
    match ev
    case Upsert(_, k, applied, _) =>
      if applied && p.Working? && k < |p.job.Upserts()| then Register(p.job.Upserts()[k]) else NoEffect
    case Deregister(_, k, applied, _) =>
      if applied && p.Working? && k < |p.job.changes.delete| then Effect.Deregister(p.job.changes.delete[k].id) else NoEffect
    case _ => NoEffect
  }

  // The cluster's handleUpdate after the event. Each call is skipped when it has nothing to do.
  function NextProc(p: Proc, ev: Event): Proc
    requires Ready(p, ev)
  {
    match ev
    case Plan(_, job) => Working(Upserting, job, Submitted(|job.Upserts()|), [], {})
    case Upsert(_, k, applied, ok) =>
      p.(ops := p.ops[k := Settled(applied, ok)], log := if applied then p.log + [p.job.Upserts()[k]] else p.log)
    case UpsertsDone(_) => p.(phase := Deleting, ops := Submitted(|p.job.changes.delete|))
    case Deregister(_, k, applied, ok) =>
      p.(ops := p.ops[k := Settled(applied, ok)], gone := if applied then p.gone + {p.job.changes.delete[k].id} else p.gone)
    case DeletesDone(_) => p.(phase := Finished)
    case Abort(_) => p.(phase := Failed)
  }

  ghost function Next(home: string -> string, setId: string, s: State, ev: Event): State
    requires Enabled(home, setId, s, ev)
  {
    State(Apply(s.reg, EffectOf(s.procs[ev.c], ev)), s.procs[ev.c := NextProc(s.procs[ev.c], ev)])
  }

  // ---- The invariant ----

  // Every instance of a cluster has an id that is the cluster's to use.
  ghost predicate Homed(home: string -> string, setId: string, reg: Instances) {
    forall c: string, id :: id in Own(reg, setId, c) ==> home(id) == c
  }

  ghost predicate UpsertsApplied(p: Proc)
    requires p.Working?
  {
    forall e :: e in p.job.Upserts() ==> e in p.log
  }

  ghost predicate JobInv(home: string -> string, setId: string, c: string, job: Job) {
    && IsDiff(job.changes, job.current, job.desired)
    && (forall e :: e in job.desired ==> home(e.id) == c && Exportable(e, setId, c))
    && (forall e :: e in job.current ==> home(e.id) == c)
  }

  // The cluster's part of the registry is what it read, with the logged upserts and deregistrations applied.
  ghost predicate LogInv(own: map<string, Endpoint>, p: Proc)
    requires p.Working?
  {
    && (forall e :: e in p.log ==> e in p.job.Upserts())
    && p.gone <= Ids(p.job.changes.delete)
    && own == PutAll(ById(p.job.current), p.log) - p.gone
  }

  ghost predicate ProcInv(home: string -> string, setId: string, c: string, own: map<string, Endpoint>, p: Proc) {
    p.Working? ==> JobInv(home, setId, c, p.job) && LogInv(own, p) && PhaseInv(p)
  }

  ghost predicate PhaseInv(p: Proc)
    requires p.Working?
  {
    match p.phase
    case Upserting =>
      && |p.ops| == |p.job.Upserts()| && p.gone == {}
      && forall k :: 0 <= k < |p.ops| && p.ops[k] == Succeeded ==> p.job.Upserts()[k] in p.log
    case Deleting =>
      && |p.ops| == |p.job.changes.delete| && UpsertsApplied(p)
      && forall k :: 0 <= k < |p.ops| && p.ops[k] == Succeeded ==> p.job.changes.delete[k].id in p.gone
    case Finished => UpsertsApplied(p) && p.gone == Ids(p.job.changes.delete)
    case Failed => p.gone == {} || UpsertsApplied(p)
  }

  ghost predicate Inv(home: string -> string, setId: string, s: State) {
    && Homed(home, setId, s.reg)
    && forall c :: c in s.procs ==> ProcInv(home, setId, c, Own(s.reg, setId, c), s.procs[c])
  }

  // What a handleUpdate writes or removes is its cluster's.
  ghost predicate EffectIn(home: string -> string, setId: string, c: string, eff: Effect) {
    match eff
    case NoEffect => true
    case Register(e) => home(e.id) == c && Exportable(e, setId, c)
    case Deregister(id) => home(id) == c
  }

  lemma WritesOwn(home: string -> string, setId: string, c: string, own: map<string, Endpoint>, p: Proc, ev: Event)
    requires ProcInv(home, setId, c, own, p)
    ensures EffectIn(home, setId, c, EffectOf(p, ev))
  {
    if p.Working? {
      DeletesAreUndesired(p.job.changes, p.job.current, p.job.desired);
      var eff := EffectOf(p, ev);
      match eff
      case NoEffect =>
      case Register(e) => assert e in p.job.Upserts();
      case Deregister(id) => assert id in Ids(p.job.changes.delete);
    }
  }

  // An effect in one cluster's hands leaves every other cluster's ids alone.
  lemma ForeignKept(home: string -> string, setId: string, c: string, reg: Instances, eff: Effect, id: string)
    requires EffectIn(home, setId, c, eff) && home(id) != c
    ensures (id in Apply(reg, eff) <==> id in reg) && (id in reg ==> Apply(reg, eff)[id] == reg[id])
  {
  }

  lemma EffectOnOwn(home: string -> string, setId: string, c: string, reg: Instances, eff: Effect, d: string)
    requires EffectIn(home, setId, c, eff) && Homed(home, setId, reg)
    ensures Own(Apply(reg, eff), setId, d) == if c == d then ApplyRead(Own(reg, setId, d), eff) else Own(reg, setId, d)
  {
    ReadAfter(reg, setId, eff);
    OwnAfter(Listed(reg, setId), d, eff);
  }

  lemma EffectHomed(home: string -> string, setId: string, c: string, reg: Instances, eff: Effect)
    requires EffectIn(home, setId, c, eff) && Homed(home, setId, reg)
    ensures Homed(home, setId, Apply(reg, eff))
  {
    forall d: string, id | id in Own(Apply(reg, eff), setId, d) ensures home(id) == d {
      EffectOnOwn(home, setId, c, reg, eff, d);
    }
  }

  // What is listed is what is registered.
  lemma ReadById(es: seq<Endpoint>, m: map<string, Endpoint>)
    requires Lists(es, m)
    ensures ById(es) == m
  {
  }

  lemma PlanStep(home: string -> string, reg: Instances, setId: string, p: Proc, ev: Event)
    requires Homed(home, setId, reg) && ev.Plan? && Ready(p, ev) && GoodJob(home, reg, setId, ev.c, ev.job)
    ensures ProcInv(home, setId, ev.c, Own(reg, setId, ev.c), NextProc(p, ev))
  {
    var own := Own(reg, setId, ev.c);
    ReadById(ev.job.current, own);
    forall e | e in ev.job.current ensures home(e.id) == ev.c { assert e.id in own; }
    assert own - {} == own;
  }

  lemma LogStep(own: map<string, Endpoint>, p: Proc, ev: Event)
    requires p.Working? && !ev.Plan? && Ready(p, ev) && LogInv(own, p) && PhaseInv(p)
    ensures LogInv(ApplyRead(own, EffectOf(p, ev)), NextProc(p, ev))
  {
    match EffectOf(p, ev)
    case NoEffect =>
    case Register(e) => LogMore(ById(p.job.current), p.log, e);
    case Deregister(id) =>
  }

  lemma LogMore(m: map<string, Endpoint>, log: seq<Endpoint>, e: Endpoint)
    ensures PutAll(m, log + [e]) - {} == (PutAll(m, log) - {})[e.id := e]
  {
    assert (log + [e])[..|log|] == log;
  }

  lemma PhaseStep(p: Proc, ev: Event)
    requires p.Working? && !ev.Plan? && Ready(p, ev) && PhaseInv(p)
    requires p.gone <= Ids(p.job.changes.delete)
    ensures PhaseInv(NextProc(p, ev))
  {
  }

  lemma ProcStep(home: string -> string, setId: string, s: State, ev: Event)
    requires Homed(home, setId, s.reg) && Enabled(home, setId, s, ev)
    requires ProcInv(home, setId, ev.c, Own(s.reg, setId, ev.c), s.procs[ev.c])
    ensures var p := s.procs[ev.c];
            ProcInv(home, setId, ev.c, ApplyRead(Own(s.reg, setId, ev.c), EffectOf(p, ev)), NextProc(p, ev))
  {
    var p, own := s.procs[ev.c], Own(s.reg, setId, ev.c);
    if ev.Plan? {
      PlanStep(home, s.reg, setId, p, ev);
    } else {
      LogStep(own, p, ev);
      PhaseStep(p, ev);
    }
  }

  lemma StepInv(home: string -> string, setId: string, s: State, ev: Event)
    requires Inv(home, setId, s) && Enabled(home, setId, s, ev)
    ensures Inv(home, setId, Next(home, setId, s, ev))
  {
    var own, p := Own(s.reg, setId, ev.c), s.procs[ev.c];
    var eff := EffectOf(p, ev);
    assert ProcInv(home, setId, ev.c, own, p);
    WritesOwn(home, setId, ev.c, own, p, ev);
    EffectHomed(home, setId, ev.c, s.reg, eff);
    ProcStep(home, setId, s, ev);
    forall c | c in s.procs ensures ProcInv(home, setId, c, Own(Apply(s.reg, eff), setId, c), Next(home, setId, s, ev).procs[c]) {
      EffectOnOwn(home, setId, ev.c, s.reg, eff, c);
    }
  }

  // ---- Runs ----

  // The clusters start idle, over any registry in which every instance has an id its cluster may use.
  ghost predicate IsStart(home: string -> string, setId: string, s: State) {
    Homed(home, setId, s.reg) && forall c :: c in s.procs ==> s.procs[c] == Idle
  }

  ghost predicate IsRun(home: string -> string, setId: string, start: State, evs: seq<Event>)
    decreases |evs|, 0
  {
    if evs == [] then IsStart(home, setId, start) else
      var init := evs[..|evs| - 1];
      IsRun(home, setId, start, init) && Enabled(home, setId, After(home, setId, start, init), evs[|evs| - 1])
  }

  ghost function After(home: string -> string, setId: string, start: State, evs: seq<Event>): State
    requires IsRun(home, setId, start, evs)
    decreases |evs|, 1
  {
    if evs == [] then start else
      var init := evs[..|evs| - 1];
      Next(home, setId, After(home, setId, start, init), evs[|evs| - 1])
  }

  lemma {:induction false} RunInv(home: string -> string, setId: string, start: State, evs: seq<Event>)
    requires IsRun(home, setId, start, evs)
    ensures Inv(home, setId, After(home, setId, start, evs))
  {
    if evs != [] {
      var init := evs[..|evs| - 1];
      RunInv(home, setId, start, init);
      StepInv(home, setId, After(home, setId, start, init), evs[|evs| - 1]);
    }
  }

  // Make before break: whatever succeeded, failed or is still pending, the registry holds all the ids this
  // cluster had, or all the ids it wants, and at any time every id it both had and wants.
  lemma MakeBeforeBreak(home: string -> string, setId: string, start: State, evs: seq<Event>, c: string)
    requires IsRun(home, setId, start, evs)
    requires c in After(home, setId, start, evs).procs && After(home, setId, start, evs).procs[c].Working?
    ensures var s := After(home, setId, start, evs);
            var had, want := Ids(s.procs[c].job.current), Ids(s.procs[c].job.desired);
            var own := Own(s.reg, setId, c).Keys;
            (had <= own || want <= own) && had * want <= own <= had + want
  {
    RunInv(home, setId, start, evs);
    var s := After(home, setId, start, evs);
    assert ProcInv(home, setId, c, Own(s.reg, setId, c), s.procs[c]);
    LogBounds(Own(s.reg, setId, c), s.procs[c]);
  }

  lemma LogBounds(own: map<string, Endpoint>, p: Proc)
    requires p.Working? && LogInv(own, p) && PhaseInv(p) && IsDiff(p.job.changes, p.job.current, p.job.desired)
    ensures var had, want := Ids(p.job.current), Ids(p.job.desired);
            (had <= own.Keys || want <= own.Keys) && had * want <= own.Keys <= had + want
  {
    var m := ById(p.job.current);
    DeletesAreUndesired(p.job.changes, p.job.current, p.job.desired);
    forall id ensures id in PutAll(m, p.log) <==> id in m || id in Ids(p.log) { PutAllAt(m, p.log, id); }
    forall id | id in Ids(p.log) ensures id in Ids(p.job.desired) {
      var e :| e in p.log && e.id == id;
      assert e in p.job.Upserts() && e in p.job.desired;
    }
    if p.gone != {} || p.phase.Finished? {
      forall id | id in Ids(p.job.desired) ensures id in own { WantedIsThere(own, p, id); }
    }
  }

  lemma WantedIsThere(own: map<string, Endpoint>, p: Proc, id: string)
    requires p.Working? && LogInv(own, p) && UpsertsApplied(p) && IsDiff(p.job.changes, p.job.current, p.job.desired)
    requires id in Ids(p.job.desired)
    ensures id in own
  {
    var m := ById(p.job.current);
    DeletesAreUndesired(p.job.changes, p.job.current, p.job.desired);
    UpsertedOrUpToDate(m, p.job.desired, id);
    PutAllAt(m, p.log, id);
    if e :| e in p.job.Upserts() && e.id == id {
      assert e in p.log;
    }
  }

  // Convergence: from the end of a successful handleUpdate on, whatever the other clusters do, this cluster's part
  // of the registry has exactly the desired ids, and is exactly the desired endpoints when no id repeats.
  lemma Converges(home: string -> string, setId: string, start: State, evs: seq<Event>, c: string)
    requires IsRun(home, setId, start, evs)
    requires var s := After(home, setId, start, evs); c in s.procs && s.procs[c].Working? && s.procs[c].phase.Finished?
    ensures var s := After(home, setId, start, evs);
            var own, desired := Own(s.reg, setId, c), s.procs[c].job.desired;
            && own.Keys == Ids(desired)
            && (forall id :: id in own ==> own[id] in desired)
            && (DistinctIds(desired) ==> own == ById(desired))
  {
    RunInv(home, setId, start, evs);
    var s := After(home, setId, start, evs);
    var p := s.procs[c];
    assert ProcInv(home, setId, c, Own(s.reg, setId, c), p);
    DiffReaches(p.job.changes, p.job.current, p.job.desired, p.log);
  }

  // Stability: reading the registry back through the parser and planning for the same endpoints
  // finds nothing to do, exactly when no desired id repeats.
  lemma Stable(home: string -> string, setId: string, start: State, evs: seq<Event>, c: string,
               current: seq<Endpoint>, changes: Changes)
    requires IsRun(home, setId, start, evs)
    requires var s := After(home, setId, start, evs);
             && c in s.procs && s.procs[c].Working? && s.procs[c].phase.Finished?
             && Lists(current, Own(s.reg, setId, c)) && IsDiff(changes, current, s.procs[c].job.desired)
    ensures changes.IsNone() <==> DistinctIds(After(home, setId, start, evs).procs[c].job.desired)
  {
    var s := After(home, setId, start, evs);
    Converges(home, setId, start, evs, c);
    ReadById(current, Own(s.reg, setId, c));
    IsNoneIffUpToDate(changes, current, s.procs[c].job.desired);
  }

  // Non-interference: over a whole run, an instance changes only if its id's own cluster took a step,
  // attributes outside every cluster included.
  lemma {:induction false} OnlyHomeChanges(home: string -> string, setId: string, start: State, evs: seq<Event>, id: string)
    requires IsRun(home, setId, start, evs)
    requires forall ev :: ev in evs ==> home(id) != ev.c
    ensures var reg := After(home, setId, start, evs).reg;
            (id in reg <==> id in start.reg) && (id in reg ==> reg[id] == start.reg[id])
  {
    if evs != [] {
      var init, ev := evs[..|evs| - 1], evs[|evs| - 1];
      OnlyHomeChanges(home, setId, start, init, id);
      RunInv(home, setId, start, init);
      var s := After(home, setId, start, init);
      assert ProcInv(home, setId, ev.c, Own(s.reg, setId, ev.c), s.procs[ev.c]);
      WritesOwn(home, setId, ev.c, Own(s.reg, setId, ev.c), s.procs[ev.c], ev);
      ForeignKept(home, setId, ev.c, s.reg, EffectOf(s.procs[ev.c], ev), id);
    }
  }
}
