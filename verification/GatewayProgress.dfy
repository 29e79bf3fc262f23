/** A shutdown that has begun can always run to its end: from no reachable state
    is the gateway stuck (`Shutdown` of internal/gateway/gateway.go, `wait` of
    internal/gateway/manager.go). */
module GatewayProgress {
  import opened Gateway

  // ---------- what is left to do ----------

  // An upper bound on the steps a canceled worker still takes.
  function WorkerRank(pc: WorkerPc): nat {
    match pc
    case Top => 5
    case Polling => 6
    case Waiting(_) => 5
    case Processing => 6
    case Leaving(_) => 4
    case Closing(_) => 3
    case Closed(_) => 2
    case Removed(_) => 1
    case Done(_) => 0
  }

  function WorkerRanks(convs: seq<Conv>): nat {
    if convs == [] then 0 else WorkerRank(convs[|convs| - 1].pc) + WorkerRanks(convs[..|convs| - 1])
  }

  // A lookup may spawn one more worker.
  function AdmissionRank(a: Admission): nat {
    match a
    case Idle => 0
    case Admitting(_) => 1
    case Enqueuing(_) => 8
    case Found(_, _) => 2
    case Sent(_, _) => 1
  }

  function ShutdownRank(pc: ShutdownPc): nat {
    match pc
    case Canceling => 4
    case Barred => 3
    case AdaptersGone => 2
    case Draining => 1
    case Returned => 0
  }

  function Measure(s: State, t: nat): nat
    requires t < |s.shutdowns|
  {
    WorkerRanks(s.convs) + AdmissionRank(s.admission) + (if s.starting.Some? then s.starting.value + 1 else 0)
    + s.adapters + ShutdownRank(s.shutdowns[t])
  }

  lemma {:induction false} RanksUpdate(convs: seq<Conv>, i: nat, c: Conv)
    requires i < |convs|
    ensures WorkerRanks(convs[i := c]) == WorkerRanks(convs) - WorkerRank(convs[i].pc) + WorkerRank(c.pc)
    decreases |convs|
  {
    hide WorkerRank;
    var n := |convs| - 1;
    if i < n {
      RanksUpdate(convs[..n], i, c);
      assert convs[i := c][..n] == convs[..n][i := c];
    } else {
      assert convs[i := c][..n] == convs[..n];
    }
  }

  lemma RanksSpawn(convs: seq<Conv>, key: string)
    ensures WorkerRanks(convs + [NewConv(key)]) == WorkerRanks(convs) + 5
  {
    assert (convs + [NewConv(key)])[..|convs|] == convs;
  }

  // ---------- some step always gets closer ----------

  predicate Closer(s: State, u: State, t: nat)
    requires t < |s.shutdowns|
  {
    t < |u.shutdowns| && Measure(u, t) < Measure(s, t)
  }

  lemma AdmissionEnds(s: State, t: nat) returns (step: Step)
    requires Inv(s) && t < |s.shutdowns| && s.admission != Idle
    ensures Closer(s, Next(s, step), t)
  {
    hide WorkerRanks, ConvsOk, MapOk, ShutdownsOk, Active;
    match s.admission
    case Admitting(_) =>
      step := AdmitAbandon;
    case Enqueuing(msg) =>
      step := Lookup;
      RanksSpawn(s.convs, msg.key);
    case Found(msg, i) =>
      step := Send;
      RanksUpdate(s.convs, i, s.convs[i].(queue := s.convs[i].queue + [msg], admitted := s.convs[i].admitted + [msg]));
    case Sent(_, i) =>
      step := Bump;
      RanksUpdate(s.convs, i, s.convs[i].(activitySeq := s.convs[i].activitySeq + 1));
  }

  function WorkerMove(pc: WorkerPc, i: nat): Step {
    match pc
    case Top => CheckContext(i, false)
    case Polling => PollIdle(i)
    case Waiting(_) => SelectCanceled(i)
    case Processing => FinishMessage(i)
    case Leaving(_) => MarkClosing(i)
    case Closing(_) => CloseSession(i)
    case Closed(_) => FinishEviction(i)
    case Removed(_) => WorkerDone(i)
    case Done(_) => Cancel
  }

  lemma MoveIsCloser(c: Conv, i: nat, mapped: bool)
    requires IsWorkerStep(WorkerMove(c.pc, i))
    ensures WorkerRank(Move(c, WorkerMove(c.pc, i), true, mapped, true).pc) < WorkerRank(c.pc)
  {
  }

  lemma WorkerEnds(s: State, t: nat, i: nat) returns (step: Step)
    requires s.canceled && GatewayLockFree(s) && ManagerLockFree(s)
    requires t < |s.shutdowns| && i < |s.convs| && !s.convs[i].pc.Done?
    ensures Closer(s, Next(s, step), t)
  {
    hide Move, WorkerRanks, WorkerRank, Next, Measure;
    step := WorkerMove(s.convs[i].pc, i);
    if IsWorkerStep(step) {
      MoveIsCloser(s.convs[i], i, Mapped(s, i));
      NextOfWorker(s, step);
      OneCloser(s, Next(s, step), t, i, Move(s.convs[i], step, true, Mapped(s, i), true));
    } else if s.convs[i].pc.Closed? {
      RemovalIsCloser(s, t, i);
    } else {
      DoneIsCloser(s, t, i);
    }
  }

  lemma OneCloser(s: State, u: State, t: nat, i: nat, c: Conv)
    requires t < |s.shutdowns| && i < |s.convs|
    requires u.convs == s.convs[i := c] && WorkerRank(c.pc) < WorkerRank(s.convs[i].pc)
    requires u.admission == s.admission && u.starting == s.starting && u.adapters == s.adapters
    requires u.shutdowns == s.shutdowns
    ensures Closer(s, u, t)
  {
    hide WorkerRanks, WorkerRank, AdmissionRank, ShutdownRank;
    RanksUpdate(s.convs, i, c);
  }

  lemma RemovalIsCloser(s: State, t: nat, i: nat)
    requires t < |s.shutdowns| && i < |s.convs| && s.convs[i].pc.Closed? && ManagerLockFree(s)
    ensures Closer(s, Next(s, FinishEviction(i)), t)
  {
    hide Closer, Move;
    OneCloser(s, Next(s, FinishEviction(i)), t, i, s.convs[i].(pc := Removed(s.convs[i].pc.evicted)));
  }

  lemma DoneIsCloser(s: State, t: nat, i: nat)
    requires t < |s.shutdowns| && i < |s.convs| && s.convs[i].pc.Removed?
    ensures Closer(s, Next(s, WorkerDone(i)), t)
  {
    hide Closer, Move;
    OneCloser(s, Next(s, WorkerDone(i)), t, i, s.convs[i].(pc := Done(s.convs[i].pc.evicted)));
  }

  lemma {:induction false} AllDone(convs: seq<Conv>)
    requires forall i :: 0 <= i < |convs| ==> convs[i].pc.Done?
    ensures Active(convs) == 0
    decreases |convs|
  {
    if convs != [] {
      AllDone(convs[..|convs| - 1]);
    }
  }

  lemma ShutdownMoves(s: State, t: nat) returns (step: Step)
    requires Inv(s) && t < |s.shutdowns| && s.shutdowns[t] != Returned
    requires GatewayLockFree(s) && ManagerLockFree(s) && s.adapters == 0 && Active(s.convs) == 0
    ensures Closer(s, Next(s, step), t)
  {
    hide WorkerRanks, ConvsOk, MapOk, ShutdownsOk, Active, Next;
    ShutdownNext(s, t);
    match s.shutdowns[t]
    case Canceling => step := ShutdownGatewayBarrier(t);
    case Barred => step := ShutdownAdapters(t);
    case AdaptersGone => step := ShutdownManagerBarrier(t);
    case Draining => step := ShutdownReturn(t);
  }

  lemma ShutdownNext(s: State, t: nat)
    ensures Next(s, ShutdownGatewayBarrier(t)) == ShutdownStep(s, t, Canceling, GatewayLockFree(s), Barred)
    ensures Next(s, ShutdownAdapters(t)) == ShutdownStep(s, t, Barred, s.adapters == 0, AdaptersGone)
    ensures Next(s, ShutdownManagerBarrier(t)) == ShutdownStep(s, t, AdaptersGone, ManagerLockFree(s), Draining)
    ensures Next(s, ShutdownReturn(t)) == ShutdownStep(s, t, Draining, s.workers == 0, Returned)
  {
    hide ShutdownStep;
  }

  lemma SomethingMoves(s: State, t: nat) returns (step: Step)
    requires Inv(s) && t < |s.shutdowns| && s.shutdowns[t] != Returned
    ensures Closer(s, Next(s, step), t)
  {
    if s.admission != Idle {
      step := AdmissionEnds(s, t);
    } else if s.starting.Some? {
      step := RunAdd;
    } else if s.adapters > 0 {
      step := AdapterDone;
    } else if i :| 0 <= i < |s.convs| && !s.convs[i].pc.Done? {
      ShutdownIsCanceled(s, t);
      hide Inv, Next, Measure;
      step := WorkerEnds(s, t, i);
    } else {
      hide Next, Measure;
      AllDone(s.convs);
      step := ShutdownMoves(s, t);
    }
  }

  lemma ShutdownIsCanceled(s: State, t: nat)
    requires Inv(s) && t < |s.shutdowns|
    ensures s.canceled
  {
    assert ShutdownOk(s, s.shutdowns[t]);
  }

  // ---------- main result ----------

  lemma {:induction false} AfterCons(s: State, step: Step, steps: seq<Step>)
    ensures After(s, [step] + steps) == After(Next(s, step), steps)
    decreases |steps|
  {
    hide Next;
    var all := [step] + steps;
    if steps == [] {
      assert all[..0] == [];
    } else {
      var n := |steps| - 1;
      AfterCons(s, step, steps[..n]);
      assert all[..|steps|] == [step] + steps[..n];
    }
  }

  predicate Ends(s: State, steps: seq<Step>, t: nat) {
    t < |After(s, steps).shutdowns| && After(s, steps).shutdowns[t] == Returned
  }

  lemma {:induction false} SomeRunEnds(s: State, t: nat) returns (steps: seq<Step>)
    requires Inv(s) && t < |s.shutdowns|
    ensures Ends(s, steps, t)
    decreases Measure(s, t)
  {
    hide Inv, Next;
    if s.shutdowns[t] == Returned {
      steps := [];
    } else {
      var step := SomethingMoves(s, t);
      NextKeepsInv(s, step);
      var rest := SomeRunEnds(Next(s, step), t);
      steps := [step] + rest;
      AfterCons(s, step, rest);
    }
  }

  // However far admissions, adapters and workers have come, a shutdown that has
  // begun has a continuation in which it returns.
  lemma ShutdownCanReturn(s: State, t: nat)
    requires Reachable(s) && t < |s.shutdowns|
    ensures exists steps :: Ends(s, steps, t)
  {
    hide Inv, Ends;
    ReachableInv(s);
    var steps := SomeRunEnds(s, t);
  }
}
