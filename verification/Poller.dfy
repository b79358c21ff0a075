// pkg/cloudmap/operation_poller.go: N calls of Submit followed by one Await, as a step system.
// The goroutines interleave in any order; an event is one step of one of them.
module Poller {
  import opened Common

  datatype OpResult = OpResult(opId: string, err: Option<Error>)

  // What one GetOperation call of wait.Poll's condition finds.
  datatype Reply = Success | Fail(reason: string) | Pending | Unreadable(err: Error)

  // The goroutine of one Submit.
  datatype Worker =
    | NotSubmitted
    | Calling
    | Polling(opId: string, left: nat)
    | Sending(res: OpResult)
    | Sent(res: OpResult)
    | Exited(res: OpResult)

  // The goroutine that calls Submit N times and then Await.
  datatype Main = Submitting(next: nat) | Spawning(next: nat) | Receiving | Returned

  // The goroutine Await starts to close the channel.
  datatype Closer = NotStarted | Waiting | Finished

  datatype Receipt = Receipt(i: nat, res: OpResult)

  datatype State = State(
    maxPolls: nat, workers: seq<Worker>, main: Main, counter: int, closer: Closer, closed: bool,
    received: seq<Receipt>, err: Option<Error>, panicked: bool)

  datatype Event =
    | Add
    | Spawn
    | StartAwait
    | Provide(i: nat, opId: string, err: Option<Error>, polls: nat)
    | Read(i: nat, reply: Reply)
    | TimeOut(i: nat)
    | Send(i: nat)
    | Done(i: nat)
    | Close
    | Return

  function Start(n: nat, maxPolls: nat): State {
    State(maxPolls, seq(n, _ => NotSubmitted), Submitting(0), 0, NotStarted, false, [], None, false)
  }

  // The channel has no buffer, so a send needs the receiver, unless the channel is closed and it panics.
  predicate Enabled(s: State, ev: Event) {
    && !s.panicked
    && match ev
       case Add => s.main.Submitting? && s.main.next < |s.workers|
       case Spawn => s.main.Spawning? && s.main.next < |s.workers|
       case StartAwait => s.main.Submitting? && s.main.next >= |s.workers|
       case Provide(i, _, _, polls) => i < |s.workers| && s.workers[i].Calling? && polls <= s.maxPolls
       case Read(i, reply) => i < |s.workers| && s.workers[i].Polling? && (reply.Pending? ==> s.workers[i].left > 0)
       case TimeOut(i) => i < |s.workers| && s.workers[i].Polling? && s.workers[i].left == 0
       case Send(i) => i < |s.workers| && s.workers[i].Sending? && (s.main.Receiving? || s.closed)
       case Done(i) => i < |s.workers| && s.workers[i].Sent?
       case Close => s.closer.Waiting? && s.counter == 0
       case Return => s.main.Receiving? && s.closed
  }

  // Poll's error for a failed operation.
  function FailedText(opId: string, reason: string): string {
    "operation failed, opId: " + opId + ", reason: " + reason
  }

  function TimedOutText(opId: string): string {
    "timed out while polling operations, opId: " + opId
  }

  function AfterRead(opId: string, left: nat, reply: Reply): Worker
    requires reply.Pending? ==> left > 0
  {
    match reply
    case Success => Sending(OpResult(opId, None))
    case Fail(reason) => Sending(OpResult(opId, Some(NewError(FailedText(opId, reason)))))
    case Unreadable(err) => Sending(OpResult(opId, Some(err)))
    case Pending => Polling(opId, left - 1)
  }

  function Next(s: State, ev: Event): State
    requires Enabled(s, ev)
  {
    match ev
    case Add => s.(counter := s.counter + 1, main := Spawning(s.main.next))
    case Spawn => s.(workers := s.workers[s.main.next := Calling], main := Submitting(s.main.next + 1))
    case StartAwait => s.(closer := Waiting, main := Receiving)
    case Provide(i, opId, err, polls) =>
      s.(workers := s.workers[i := if err == None then Polling(opId, polls) else Sending(OpResult(opId, err))])
    case Read(i, reply) =>
      s.(workers := s.workers[i := AfterRead(s.workers[i].opId, s.workers[i].left, reply)])
    case TimeOut(i) =>
      var opId := s.workers[i].opId;
      s.(workers := s.workers[i := Sending(OpResult(opId, Some(NewError(TimedOutText(opId)))))])
    case Send(i) =>
      var res := s.workers[i].res;
      if s.closed then s.(panicked := true)
      else s.(workers := s.workers[i := Sent(res)], received := s.received + [Receipt(i, res)],
              err := if res.err != None then Wrap(s.err, res.err) else s.err)
    case Done(i) =>
      if s.counter <= 0 then s.(panicked := true)
      else s.(workers := s.workers[i := Exited(s.workers[i].res)], counter := s.counter - 1)
    case Close =>
      if s.closed then s.(panicked := true) else s.(closed := true, closer := Finished)
    case Return => s.(main := Returned)
  }

  // A run of a poller with n submits, as the sequence of its steps.
  ghost predicate IsRun(n: nat, maxPolls: nat, evs: seq<Event>)
    decreases |evs|, 0
  {
    evs == [] ||
    (var init := evs[..|evs| - 1];
     IsRun(n, maxPolls, init) && Enabled(After(n, maxPolls, init), evs[|evs| - 1]))
  }

  ghost function After(n: nat, maxPolls: nat, evs: seq<Event>): State
    requires IsRun(n, maxPolls, evs)
    decreases |evs|, 1
  {
    if evs == [] then Start(n, maxPolls) else
      var init := evs[..|evs| - 1];
      Next(After(n, maxPolls, init), evs[|evs| - 1])
  }

  // ---- The invariant ----

  predicate IsActive(w: Worker) {
    !w.NotSubmitted? && !w.Exited?
  }

  function Active(ws: seq<Worker>): nat {
    if ws == [] then 0 else Active(ws[..|ws| - 1]) + if IsActive(ws[|ws| - 1]) then 1 else 0
  }

  predicate Delivered(w: Worker) {
    w.Sent? || w.Exited?
  }

  // How often worker i was heard.
  function Heard(rs: seq<Receipt>, i: nat): nat {
    if rs == [] then 0 else Heard(rs[..|rs| - 1], i) + if rs[|rs| - 1].i == i then 1 else 0
  }

  // The fold of Await's receive loop.
  function Folded(rs: seq<Receipt>): Option<Error> {
    if rs == [] then None else
      var res := rs[|rs| - 1].res;
      if res.err != None then Wrap(Folded(rs[..|rs| - 1]), res.err) else Folded(rs[..|rs| - 1])
  }

  // The WaitGroup counts the goroutines that have not called Done.
  ghost predicate Counted(s: State) {
    s.counter == Active(s.workers) + if s.main.Spawning? then 1 else 0
  }

  ghost predicate InOrder(s: State) {
    match s.main
    case Submitting(k) => k <= |s.workers| && (forall i :: 0 <= i < |s.workers| ==> (s.workers[i].NotSubmitted? <==> i >= k))
    case Spawning(k) => k < |s.workers| && (forall i :: 0 <= i < |s.workers| ==> (s.workers[i].NotSubmitted? <==> i >= k))
    case _ => forall i :: 0 <= i < |s.workers| ==> !s.workers[i].NotSubmitted?
  }

  ghost predicate Closing(s: State) {
    && (s.closer.NotStarted? <==> s.main.Submitting? || s.main.Spawning?)
    && (s.closed <==> s.closer.Finished?)
    && (s.closed ==> forall i :: 0 <= i < |s.workers| ==> s.workers[i].Exited?)
    && (s.main.Returned? ==> s.closed)
  }

  ghost predicate HeardOnce(s: State) {
    forall i :: 0 <= i < |s.workers| ==> Heard(s.received, i) == if Delivered(s.workers[i]) then 1 else 0
  }

  ghost predicate HeardRight(s: State) {
    forall r :: r in s.received ==> r.i < |s.workers| && Delivered(s.workers[r.i]) && s.workers[r.i].res == r.res
  }

  ghost predicate Bounded(s: State) {
    forall i :: 0 <= i < |s.workers| && s.workers[i].Polling? ==> s.workers[i].left <= s.maxPolls
  }

  ghost predicate Inv(s: State) {
    && !s.panicked
    && Counted(s) && InOrder(s) && Closing(s)
    && HeardOnce(s) && HeardRight(s) && Bounded(s)
    && s.err == Folded(s.received)
  }

  lemma {:induction false} ActivePut(ws: seq<Worker>, i: nat, w: Worker)
    requires i < |ws|
    ensures Active(ws[i := w]) == Active(ws) - (if IsActive(ws[i]) then 1 else 0) + (if IsActive(w) then 1 else 0)
  {
    var n := |ws| - 1;
    if i < n {
      assert ws[i := w][..n] == ws[..n][i := w];
      ActivePut(ws[..n], i, w);
    } else {
      assert ws[i := w][..n] == ws[..n];
    }
  }

  lemma {:induction false} NoneActive(ws: seq<Worker>, i: nat)
    requires Active(ws) == 0 && i < |ws|
    ensures !IsActive(ws[i])
  {
    if i < |ws| - 1 {
      NoneActive(ws[..|ws| - 1], i);
    }
  }

  lemma {:induction false} SomeActive(ws: seq<Worker>, i: nat)
    requires i < |ws| && IsActive(ws[i])
    ensures Active(ws) > 0
  {
    if i < |ws| - 1 {
      SomeActive(ws[..|ws| - 1], i);
    }
  }

  lemma {:induction false} NothingActive(n: nat)
    ensures Active(seq(n, _ => NotSubmitted)) == 0
  {
    if n > 0 {
      NothingActive(n - 1);
      assert seq(n, _ => NotSubmitted)[..n - 1] == seq(n - 1, _ => NotSubmitted);
    }
  }

  lemma StartInv(n: nat, maxPolls: nat)
    ensures Inv(Start(n, maxPolls))
  {
    NothingActive(n);
  }

  // No step panics: a sender finds the channel open, Done finds the counter positive, Close finds the channel open.
  lemma StepSafe(s: State, ev: Event)
    requires Inv(s) && Enabled(s, ev)
    ensures !Next(s, ev).panicked
  {
    if ev.Done? {
      SomeActive(s.workers, ev.i);
    }
  }

  lemma StepCounted(s: State, ev: Event)
    requires Counted(s) && InOrder(s) && Enabled(s, ev) && !Next(s, ev).panicked
    ensures Counted(Next(s, ev))
  {
    var s' := Next(s, ev);
    match ev
    case Spawn => ActivePut(s.workers, s.main.next, Calling);
    case Provide(i, _, _, _) => ActivePut(s.workers, i, s'.workers[i]);
    case Read(i, _) => ActivePut(s.workers, i, s'.workers[i]);
    case TimeOut(i) => ActivePut(s.workers, i, s'.workers[i]);
    case Send(i) => ActivePut(s.workers, i, s'.workers[i]);
    case Done(i) => ActivePut(s.workers, i, s'.workers[i]);
    case _ =>
  }

  lemma StepInOrder(s: State, ev: Event)
    requires InOrder(s) && Enabled(s, ev)
    ensures InOrder(Next(s, ev))
  {
  }

  lemma StepClosing(s: State, ev: Event)
    requires Inv(s) && Enabled(s, ev) && !Next(s, ev).panicked
    ensures Closing(Next(s, ev))
  {
    if ev.Close? {
      forall i | 0 <= i < |s.workers| ensures s.workers[i].Exited? { NoneActive(s.workers, i); }
    }
  }

  lemma StepHeardOnce(s: State, ev: Event)
    requires InOrder(s) && HeardOnce(s) && Enabled(s, ev)
    ensures HeardOnce(Next(s, ev))
  {
    if ev.Send? {
      forall k: nat ensures Heard(s.received + [Receipt(ev.i, s.workers[ev.i].res)], k) == Heard(s.received, k) + if k == ev.i then 1 else 0 {
        HeardSnoc(s.received, Receipt(ev.i, s.workers[ev.i].res), k);
      }
    }
  }

  lemma StepHeardRight(s: State, ev: Event)
    requires InOrder(s) && HeardRight(s) && Enabled(s, ev) && s.err == Folded(s.received)
    ensures HeardRight(Next(s, ev)) && Next(s, ev).err == Folded(Next(s, ev).received)
  {
    if ev.Send? {
      assert (s.received + [Receipt(ev.i, s.workers[ev.i].res)])[..|s.received|] == s.received;
    }
  }

  lemma HeardSnoc(rs: seq<Receipt>, r: Receipt, i: nat)
    ensures Heard(rs + [r], i) == Heard(rs, i) + if r.i == i then 1 else 0
  {
    assert (rs + [r])[..|rs|] == rs;
  }

  lemma StepBounded(s: State, ev: Event)
    requires Bounded(s) && Enabled(s, ev)
    ensures Bounded(Next(s, ev))
  {
  }

  lemma StepInv(s: State, ev: Event)
    requires Inv(s) && Enabled(s, ev)
    ensures Inv(Next(s, ev))
  {
    StepSafe(s, ev);
    StepCounted(s, ev);
    StepInOrder(s, ev);
    StepClosing(s, ev);
    StepHeardOnce(s, ev);
    StepHeardRight(s, ev);
    StepBounded(s, ev);
  }

  // In every interleaving: no panic, no result lost or heard twice.
  lemma {:induction false} RunInv(n: nat, maxPolls: nat, evs: seq<Event>)
    requires IsRun(n, maxPolls, evs)
    ensures Inv(After(n, maxPolls, evs)) && |After(n, maxPolls, evs).workers| == n && After(n, maxPolls, evs).maxPolls == maxPolls
  {
    if evs == [] {
      StartInv(n, maxPolls);
    } else {
      RunInv(n, maxPolls, evs[..|evs| - 1]);
      StepInv(After(n, maxPolls, evs[..|evs| - 1]), evs[|evs| - 1]);
    }
  }

  // ---- What the workers report ----

  // A step that makes worker i fail, and the error it reports.
  predicate Fails(ev: Event, i: nat) {
    match ev
    case Provide(j, _, err, _) => i == j && err != None
    case Read(j, reply) => i == j && (reply.Fail? || reply.Unreadable?)
    case TimeOut(j) => i == j
    case _ => false
  }

  function FailureOf(ev: Event, opId: string): Error
    requires Fails(ev, if ev.Provide? || ev.Read? || ev.TimeOut? then ev.i else 0)
  {
    match ev
    case Provide(_, _, err, _) => err.value
    case Read(_, Fail(reason)) => NewError(FailedText(opId, reason))
    case Read(_, Unreadable(err)) => err
    case TimeOut(_) => NewError(TimedOutText(opId))
  }

  predicate HasResult(w: Worker) {
    w.Sending? || w.Sent? || w.Exited?
  }

  predicate HasOperation(w: Worker, opId: string) {
    (w.Polling? && w.opId == opId) || (HasResult(w) && w.res.opId == opId)
  }

  // A worker fails for a reason the run shows, and succeeds only after reading Success.
  ghost predicate Explained(evs: seq<Event>, s: State, i: nat)
    requires i < |s.workers|
  {
    var w := s.workers[i];
    && (HasResult(w) && w.res.err == None ==> Read(i, Success) in evs)
    && (HasResult(w) && w.res.err != None ==>
          exists ev :: ev in evs && Fails(ev, i) && FailureOf(ev, w.res.opId) == w.res.err.value)
  }

  // Nothing a run shows about a worker is forgotten.
  ghost predicate Reported(evs: seq<Event>, s: State, i: nat)
    requires i < |s.workers|
  {
    var w := s.workers[i];
    && (forall ev :: ev in evs && Fails(ev, i) ==> HasResult(w) && w.res.err == Some(FailureOf(ev, w.res.opId)))
    && (Read(i, Success) in evs ==> HasResult(w) && w.res.err == None)
    && (forall ev :: ev in evs && ev.Provide? && ev.i == i ==> HasOperation(w, ev.opId))
  }

  lemma {:induction false} RunExplained(n: nat, maxPolls: nat, evs: seq<Event>, i: nat)
    requires IsRun(n, maxPolls, evs) && i < n
    ensures |After(n, maxPolls, evs).workers| == n
    ensures Explained(evs, After(n, maxPolls, evs), i)
  {
    RunInv(n, maxPolls, evs);
    if evs != [] {
      var init, ev := evs[..|evs| - 1], evs[|evs| - 1];
      RunExplained(n, maxPolls, init, i);
      assert evs == init + [ev];
      StepExplained(init, After(n, maxPolls, init), ev, i);
    }
  }

  lemma StepExplained(evs: seq<Event>, s: State, ev: Event, i: nat)
    requires i < |s.workers| && Enabled(s, ev) && Explained(evs, s, i)
    ensures Explained(evs + [ev], Next(s, ev), i)
  {
    var w, w' := s.workers[i], Next(s, ev).workers[i];
    if HasResult(w) && w.res.err != None {
      var e :| e in evs && Fails(e, i) && FailureOf(e, w.res.opId) == w.res.err.value;
      assert e in evs + [ev];
    }
    if !HasResult(w) && HasResult(w') {
      assert ev in evs + [ev];
    }
  }

  lemma {:induction false} RunReported(n: nat, maxPolls: nat, evs: seq<Event>, i: nat)
    requires IsRun(n, maxPolls, evs) && i < n
    ensures |After(n, maxPolls, evs).workers| == n
    ensures Reported(evs, After(n, maxPolls, evs), i)
  {
    RunInv(n, maxPolls, evs);
    if evs != [] {
      var init, ev := evs[..|evs| - 1], evs[|evs| - 1];
      RunReported(n, maxPolls, init, i);
      RunInv(n, maxPolls, init);
      assert evs == init + [ev];
      StepReported(init, After(n, maxPolls, init), ev, i);
    }
  }

  // A worker that got a step of its own had not reported before, and a report is never taken back.
  lemma StepReported(evs: seq<Event>, s: State, ev: Event, i: nat)
    requires i < |s.workers| && Enabled(s, ev) && InOrder(s) && Reported(evs, s, i)
    ensures Reported(evs + [ev], Next(s, ev), i)
  {
    var w, w' := s.workers[i], Next(s, ev).workers[i];
    OperationKept(s, ev, i);
    forall e | e in evs + [ev] && Fails(e, i) ensures HasResult(w') && w'.res.err == Some(FailureOf(e, w'.res.opId)) {
      if e in evs {
        assert HasResult(w) && w.res == w'.res;
      }
    }
  }

  lemma OperationKept(s: State, ev: Event, i: nat)
    requires i < |s.workers| && Enabled(s, ev) && InOrder(s)
    ensures HasResult(s.workers[i]) ==> HasResult(Next(s, ev).workers[i]) && Next(s, ev).workers[i].res == s.workers[i].res
    ensures forall opId :: HasOperation(s.workers[i], opId) ==> HasOperation(Next(s, ev).workers[i], opId)
  {
  }

  // ---- What Await returns ----

  lemma {:induction false} FoldSomeIffFailed(rs: seq<Receipt>)
    ensures Folded(rs) != None <==> exists k :: 0 <= k < |rs| && rs[k].res.err != None
  {
    if rs != [] {
      var m := |rs| - 1;
      FoldSomeIffFailed(rs[..m]);
      WrapKeepsBoth(Folded(rs[..m]), rs[m].res.err);
      if k :| 0 <= k < m && rs[..m][k].res.err != None {
        assert rs[k].res.err != None;
      }
      if k :| 0 <= k < |rs| && rs[k].res.err != None && k < m {
        assert rs[..m][k].res.err != None;
      }
    }
  }

  // Whatever order the results arrive in, no failure's text is lost.
  lemma {:induction false} FoldKeepsText(rs: seq<Receipt>, k: nat)
    requires k < |rs| && rs[k].res.err != None
    ensures Folded(rs) != None && Contains(Folded(rs).value.text, rs[k].res.err.value.text)
  {
    var m := |rs| - 1;
    WrapKeepsBoth(Folded(rs[..m]), rs[m].res.err);
    if k < m {
      FoldKeepsText(rs[..m], k);
    } else {
      ContainsSelf(rs[m].res.err.value.text);
    }
  }

  lemma {:induction false} HeardAt(rs: seq<Receipt>, i: nat) returns (k: nat)
    requires Heard(rs, i) > 0
    ensures k < |rs| && rs[k].i == i
  {
    if rs[|rs| - 1].i == i {
      k := |rs| - 1;
    } else {
      k := HeardAt(rs[..|rs| - 1], i);
    }
  }

  // When Await returns, every submitted operation was heard exactly once, with the result its worker had.
  lemma AllHeard(n: nat, maxPolls: nat, evs: seq<Event>, i: nat) returns (k: nat)
    requires IsRun(n, maxPolls, evs) && After(n, maxPolls, evs).main.Returned? && i < n
    ensures var s := After(n, maxPolls, evs);
            && Heard(s.received, i) == 1 && k < |s.received| && s.received[k].i == i
            && |s.workers| == n && s.workers[i].Exited? && s.received[k].res == s.workers[i].res
  {
    RunInv(n, maxPolls, evs);
    k := HeardAt(After(n, maxPolls, evs).received, i);
    assert After(n, maxPolls, evs).received[k] in After(n, maxPolls, evs).received;
  }

  // Await returns an error exactly when some operation failed ...
  lemma AwaitFailsIff(n: nat, maxPolls: nat, evs: seq<Event>)
    requires IsRun(n, maxPolls, evs) && After(n, maxPolls, evs).main.Returned?
    ensures After(n, maxPolls, evs).err != None <==> exists i: nat, ev :: i < n && ev in evs && Fails(ev, i)
    ensures After(n, maxPolls, evs).err == None <==> forall i: nat :: i < n ==> Read(i, Success) in evs
  {
    var s := After(n, maxPolls, evs);
    RunInv(n, maxPolls, evs);
    FoldSomeIffFailed(s.received);
    if s.err != None {
      var k :| 0 <= k < |s.received| && s.received[k].res.err != None;
      var r := s.received[k];
      assert r in s.received;
      RunExplained(n, maxPolls, evs, r.i);
      RunReported(n, maxPolls, evs, r.i);
      var ev :| ev in evs && Fails(ev, r.i) && FailureOf(ev, r.res.opId) == r.res.err.value;
      assert ev in evs && Fails(ev, r.i);
    }
    forall i: nat, ev | i < n && ev in evs && Fails(ev, i) ensures s.err != None {
      var k := AllHeard(n, maxPolls, evs, i);
      RunReported(n, maxPolls, evs, i);
      assert s.received[k].res.err != None;
    }
    forall i: nat | i < n ensures s.err == None ==> Read(i, Success) in evs {
      var k := AllHeard(n, maxPolls, evs, i);
      RunExplained(n, maxPolls, evs, i);
    }
  }

  // What a failure is to be known by: the error that was returned, or the operation and the reason Cloud Map gave.
  predicate KnownBy(ev: Event, opId: string, part: string) {
    match ev
    case Provide(_, _, Some(err), _) => part == err.text
    case Read(_, Fail(reason)) => part == opId || part == reason
    case Read(_, Unreadable(err)) => part == err.text
    case TimeOut(_) => part == opId
    case _ => false
  }

  lemma FailureSays(ev: Event, i: nat, opId: string, part: string)
    requires Fails(ev, i) && KnownBy(ev, opId, part)
    ensures Contains(FailureOf(ev, opId).text, part)
  {
    ContainsSelf(part);
    ContainsSelf(opId);
    match ev
    case Read(_, Fail(reason)) =>
      ContainsSelf(reason);
      var front, middle := "operation failed, opId: ", ", reason: ";
      ContainsInside(front + opId + middle, reason, "", reason);
      assert front + opId + middle + reason + "" == FailedText(opId, reason);
      ContainsInside(front, opId, middle + reason, opId);
      assert front + opId + (middle + reason) == FailedText(opId, reason);
    case TimeOut(_) =>
      var front := "timed out while polling operations, opId: ";
      ContainsInside(front, opId, "", opId);
      assert front + opId + "" == TimedOutText(opId);
    case _ =>
  }

  // ... and its text contains the text of every failure, which names the operation and the reason.
  lemma AwaitNamesEveryFailure(n: nat, maxPolls: nat, evs: seq<Event>, i: nat, ev: Event) returns (opId: string)
    requires IsRun(n, maxPolls, evs) && After(n, maxPolls, evs).main.Returned?
    requires i < n && ev in evs && Fails(ev, i)
    ensures After(n, maxPolls, evs).err != None
    ensures Contains(After(n, maxPolls, evs).err.value.text, FailureOf(ev, opId).text)
    ensures forall part :: KnownBy(ev, opId, part) ==> Contains(After(n, maxPolls, evs).err.value.text, part)
    ensures forall e :: e in evs && e.Provide? && e.i == i ==> e.opId == opId
  {
    var s := After(n, maxPolls, evs);
    RunInv(n, maxPolls, evs);
    RunReported(n, maxPolls, evs, i);
    var k := AllHeard(n, maxPolls, evs, i);
    FoldKeepsText(s.received, k);
    opId := s.workers[i].res.opId;
    forall part | KnownBy(ev, opId, part) ensures Contains(s.err.value.text, part) {
      FailureSays(ev, i, opId, part);
      ContainsThrough(s.err.value.text, FailureOf(ev, opId).text, part);
    }
  }

  // ---- Progress ----

  function WorkerRank(w: Worker, maxPolls: nat): nat {
    match w
    case NotSubmitted => maxPolls + 5
    case Calling => maxPolls + 4
    case Polling(_, left) => left + 3
    case Sending(_) => 2
    case Sent(_) => 1
    case Exited(_) => 0
  }

  function WorkerRanks(ws: seq<Worker>, maxPolls: nat): nat {
    if ws == [] then 0 else WorkerRanks(ws[..|ws| - 1], maxPolls) + WorkerRank(ws[|ws| - 1], maxPolls)
  }

  function MainRank(s: State): int {
    match s.main
    case Submitting(k) => 2 * (|s.workers| - k) + 2
    case Spawning(k) => 2 * (|s.workers| - k) + 1
    case Receiving => 1
    case Returned => 0
  }

  function CloserRank(c: Closer): nat {
    match c
    case NotStarted => 1
    case Waiting => 1
    case Finished => 0
  }

  // How many steps are left at most.
  function Measure(s: State): int {
    WorkerRanks(s.workers, s.maxPolls) + MainRank(s) + CloserRank(s.closer)
  }

  lemma {:induction false} RanksPut(ws: seq<Worker>, i: nat, w: Worker, maxPolls: nat)
    requires i < |ws|
    ensures WorkerRanks(ws[i := w], maxPolls) == WorkerRanks(ws, maxPolls) - WorkerRank(ws[i], maxPolls) + WorkerRank(w, maxPolls)
  {
    var n := |ws| - 1;
    if i < n {
      assert ws[i := w][..n] == ws[..n][i := w];
      RanksPut(ws[..n], i, w, maxPolls);
    } else {
      assert ws[i := w][..n] == ws[..n];
    }
  }

  predicate MovesWorker(ev: Event) {
    ev.Spawn? || ev.Provide? || ev.Read? || ev.TimeOut? || ev.Send? || ev.Done?
  }

  lemma StepRanks(s: State, ev: Event)
    requires InOrder(s) && Bounded(s) && Enabled(s, ev) && !Next(s, ev).panicked
    ensures WorkerRanks(Next(s, ev).workers, s.maxPolls) + (if MovesWorker(ev) then 1 else 0) <= WorkerRanks(s.workers, s.maxPolls)
  {
    if MovesWorker(ev) {
      var i := if ev.Spawn? then s.main.next else ev.i;
      var w' := Next(s, ev).workers[i];
      RanksPut(s.workers, i, w', s.maxPolls);
      assert Next(s, ev).workers == s.workers[i := w'];
    }
  }

  // Every step brings Await closer to returning.
  lemma StepProgress(s: State, ev: Event)
    requires InOrder(s) && Bounded(s) && Closing(s) && Enabled(s, ev) && !Next(s, ev).panicked
    ensures Measure(Next(s, ev)) < Measure(s)
  {
    StepRanks(s, ev);
  }

  // No reachable state is stuck before Await has returned.
  lemma NeverStuck(s: State) returns (ev: Event)
    requires Inv(s) && !s.main.Returned?
    ensures Enabled(s, ev)
  {
    match s.main
    case Submitting(k) => ev := if k < |s.workers| then Add else StartAwait;
    case Spawning(_) => ev := Spawn;
    case Receiving =>
      if s.closed {
        ev := Return;
      } else if s.counter == 0 {
        ev := Close;
      } else {
        var i := FindActive(s.workers);
        match s.workers[i]
        case Calling => ev := Provide(i, "", None, 0);
        case Polling(_, left) => ev := Read(i, Success);
        case Sending(_) => ev := Send(i);
        case Sent(_) => ev := Done(i);
      }
  }

  lemma {:induction false} FindActive(ws: seq<Worker>) returns (i: nat)
    requires Active(ws) > 0
    ensures i < |ws| && IsActive(ws[i])
  {
    if IsActive(ws[|ws| - 1]) {
      i := |ws| - 1;
    } else {
      i := FindActive(ws[..|ws| - 1]);
    }
  }

  lemma {:induction false} StartRanks(n: nat, maxPolls: nat)
    ensures WorkerRanks(seq(n, _ => NotSubmitted), maxPolls) == n * (maxPolls + 5)
  {
    if n > 0 {
      StartRanks(n - 1, maxPolls);
      assert seq(n, _ => NotSubmitted)[..n - 1] == seq(n - 1, _ => NotSubmitted);
    }
  }

  // A run has at most this many steps, and one that cannot go on has Await returned:
  // with NeverStuck, every interleaving ends with Await returning.
  lemma {:induction false} RunsAreShort(n: nat, maxPolls: nat, evs: seq<Event>)
    requires IsRun(n, maxPolls, evs)
    ensures |evs| + Measure(After(n, maxPolls, evs)) <= n * (maxPolls + 5) + 2 * n + 3
    ensures Measure(After(n, maxPolls, evs)) >= 0
  {
    if evs == [] {
      StartRanks(n, maxPolls);
    } else {
      var init := evs[..|evs| - 1];
      RunsAreShort(n, maxPolls, init);
      RunInv(n, maxPolls, init);
      StepSafe(After(n, maxPolls, init), evs[|evs| - 1]);
      StepProgress(After(n, maxPolls, init), evs[|evs| - 1]);
      RunInv(n, maxPolls, evs);
    }
  }

  lemma EveryRunEndsReturned(n: nat, maxPolls: nat, evs: seq<Event>)
    requires IsRun(n, maxPolls, evs)
    ensures |evs| <= n * (maxPolls + 7) + 3
    ensures (forall ev :: !Enabled(After(n, maxPolls, evs), ev)) <==> After(n, maxPolls, evs).main.Returned?
  {
    RunsAreShort(n, maxPolls, evs);
    RunInv(n, maxPolls, evs);
    var s := After(n, maxPolls, evs);
    if !s.main.Returned? {
      var ev := NeverStuck(s);
    }
  }

  function Closings(evs: seq<Event>): nat {
    if evs == [] then 0 else Closings(evs[..|evs| - 1]) + if evs[|evs| - 1] == Close then 1 else 0
  }

  // The channel is closed once, and only after every worker has called Done.
  lemma {:induction false} ClosedOnce(n: nat, maxPolls: nat, evs: seq<Event>)
    requires IsRun(n, maxPolls, evs)
    ensures Closings(evs) == if After(n, maxPolls, evs).closed then 1 else 0
  {
    if evs != [] {
      ClosedOnce(n, maxPolls, evs[..|evs| - 1]);
      RunInv(n, maxPolls, evs[..|evs| - 1]);
    }
  }

  // ---- RegisterEndpoints and DeleteEndpoints ----

  // What they return for n endpoints: nothing to do, the error of looking the service up, or what Await returned,
  // wrapped in the name of the call.
  function Reports(n: nat, lookup: Option<Error>, awaited: Option<Error>, what: string): Option<Error> {
    if n == 0 then None
    else if lookup != None then lookup
    else if awaited != None then Wrap(awaited, Some(NewError(what)))
    else None
  }

  // They return nil exactly when there was nothing to do, or the service was found and every operation was seen to succeed.
  lemma NilIffAllSucceeded(n: nat, maxPolls: nat, evs: seq<Event>, lookup: Option<Error>, what: string)
    requires IsRun(n, maxPolls, evs) && After(n, maxPolls, evs).main.Returned?
    ensures Reports(n, lookup, After(n, maxPolls, evs).err, what) == None
            <==> n == 0 || (lookup == None && forall i: nat :: i < n ==> Read(i, Success) in evs)
  {
    AwaitFailsIff(n, maxPolls, evs);
  }

  // What they report after a failure says which call failed, and everything Await said.
  lemma ReportSaysAll(n: nat, awaited: Option<Error>, what: string)
    requires n > 0 && awaited != None
    ensures var report := Reports(n, None, awaited, what);
            && report.Some? && Contains(report.value.text, what) && report.value.notFound == awaited.value.notFound
            && forall part :: Contains(awaited.value.text, part) ==> Contains(report.value.text, part)
  {
    WrapKeepsBoth(awaited, Some(NewError(what)));
    ContainsSelf(what);
  }
}
