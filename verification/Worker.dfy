/** The worker of one conversation (internal/gateway/lifecycle.go, `run` and
    `closeRuntime`; `process` of conversation.go), running among other threads.
    Between any two of its atomic bodies the others take any steps; the trace
    records everybody's. */
module Worker {
  import opened Basics
  import opened Manager
  import Eviction

  type Steps = seq<G.Step>

  // Which ready case a select takes.
  datatype Choice = ContextDone | Message | TimerFired

  datatype Wait = Wait(others: Steps, choice: Choice)

  // What surrounds one round of the loop; `opens` says that processing the
  // message creates or loads the session.
  datatype Round = Round(
    beforeCheck: Steps, beforePoll: Steps, waits: seq<Wait>, opens: bool, whileProcessing: Steps)

  // What surrounds the teardown.
  datatype Exit = Exit(beforeMark: Steps, beforeClose: Steps, beforeRemoval: Steps, beforeDone: Steps)

  // The steps that only the worker itself takes.
  predicate Own(step: G.Step, i: nat) {
    (G.IsWorkerStep(step) || step.FinishEviction? || step.WorkerDone?) && step.conv == i
  }

  // No other thread moves the worker.
  lemma OthersLeaveWorker(s: G.State, step: G.Step, i: nat)
    requires i < |s.convs| && !Own(step, i)
    ensures i < |G.Next(s, step).convs| && G.Next(s, step).convs[i].pc == s.convs[i].pc
    ensures G.Next(s, step).convs[i].sessionOpen == s.convs[i].sessionOpen
  {
    if G.IsWorkerStep(step) {
      hide G.Next, G.Move;
      G.NextOfWorker(s, step);
    } else if step.FinishEviction? || step.WorkerDone? {
      hide G.Next;
      DeparturesLeaveWorker(s, step, i);
    } else if G.MovesConvs(step) {
      hide G.Next;
      AdmissionLeavesWorker(s, step, i);
    } else {
      hide G.Next, G.Move;
      G.SameConvs(s, step);
    }
  }

  lemma DeparturesLeaveWorker(s: G.State, step: G.Step, i: nat)
    requires i < |s.convs| && (step.FinishEviction? || step.WorkerDone?) && step.conv != i
    ensures i < |G.Next(s, step).convs| && G.Next(s, step).convs[i] == s.convs[i]
  {
    hide G.Next, G.Mapped;
    G.NextOfDeparture(s, step);
  }

  lemma AdmissionLeavesWorker(s: G.State, step: G.Step, i: nat)
    requires i < |s.convs| && (step.Lookup? || step.Send? || step.Bump?)
    ensures i < |G.Next(s, step).convs|
    ensures var c, d := s.convs[i], G.Next(s, step).convs[i]; d.pc == c.pc && d.sessionOpen == c.sessionOpen
  {
    hide G.Move, G.Mapped;
  }

  lemma RunSnoc(steps: Steps, step: G.Step)
    ensures G.Run(steps + [step]) == G.Next(G.Run(steps), step)
  {
    hide G.Next;
    assert (steps + [step])[..|steps|] == steps;
  }

  // The thread that holds the manager's lock has three steps left at most.
  lemma HolderFinishes(s: G.State)
    requires G.Inv(s)
    ensures s.admission.Enqueuing? ==>
              var a := G.Next(s, G.Lookup).admission; a.Idle? || a.Found?
    ensures s.admission.Found? ==> var a := G.Next(s, G.Send).admission; a.Idle? || a.Sent?
    ensures s.admission.Sent? ==> G.Next(s, G.Bump).admission.Idle?
  {
    hide G.ConvsOk, G.MapOk, G.ShutdownsOk, G.Active;
  }

  class ConversationWorker {
    const manager: ConversationManager
    const i: nat
    const hasTimer: bool
    ghost var trace: Steps

    // The object is in a state that the protocol reaches by the recorded steps.
    ghost predicate Valid()
      reads this, manager
    {
      i < |manager.convs| && manager.View() == G.Run(trace)
    }

    function Pc(): G.WorkerPc
      requires i < |manager.convs|
      reads this, manager
    {
      manager.convs[i].pc
    }

    constructor (manager: ConversationManager, i: nat, hasTimer: bool, ghost trace: Steps)
      requires i < |manager.convs| && manager.View() == G.Run(trace)
      ensures Valid() && this.manager == manager && this.i == i && this.hasTimer == hasTimer && this.trace == trace
    {
      this.manager, this.i, this.hasTimer, this.trace := manager, i, hasTimer, trace;
    }

    method Other(step: G.Step)
      requires Valid() && !Own(step, i)
      modifies this, manager
      ensures Valid() && old(trace) <= trace && Pc() == old(Pc())
      ensures manager.convs[i].sessionOpen == old(manager.convs[i].sessionOpen)
      ensures manager.View() == G.Next(old(manager.View()), step)
    {
      hide G.Next, G.Run;
      OthersLeaveWorker(manager.View(), step, i);
      RunSnoc(trace, step);
      manager.Interfere(step);
      trace := trace + [step];
    }

    method Others(steps: Steps)
      requires Valid()
      modifies this, manager
      ensures Valid() && old(trace) <= trace && Pc() == old(Pc())
      ensures manager.convs[i].sessionOpen == old(manager.convs[i].sessionOpen)
    {
      hide G.Run;
      for k := 0 to |steps|
        invariant Valid() && old(trace) <= trace && Pc() == old(Pc())
        invariant manager.convs[i].sessionOpen == old(manager.convs[i].sessionOpen)
      {
        if !Own(steps[k], i) {
          Other(steps[k]);
        }
      }
    }

    // Others run, and whoever holds the manager's lock gives it back.
    method AwaitLock(steps: Steps)
      requires Valid()
      modifies this, manager
      ensures Valid() && old(trace) <= trace && Pc() == old(Pc())
      ensures G.ManagerLockFree(manager.View())
    {
      hide G.Run, G.Next, G.Inv;
      Others(steps);
      G.RunKeepsInv(trace);
      HolderFinishes(manager.View());
      if manager.admission.Enqueuing? {
        HolderStep(G.Lookup);
      }
      if manager.admission.Found? {
        HolderStep(G.Send);
      }
      if manager.admission.Sent? {
        HolderStep(G.Bump);
      }
    }

    method HolderStep(step: G.Step)
      requires Valid()
      requires || (step == G.Lookup && manager.admission.Enqueuing?)
               || (step == G.Send && manager.admission.Found?)
               || (step == G.Bump && manager.admission.Sent?)
      modifies this, manager
      ensures Valid() && old(trace) <= trace && Pc() == old(Pc())
      ensures var a := manager.admission;
              a.Idle? || (step.Lookup? && a.Found?) || (step.Send? && a.Sent?)
    {
      hide G.Run, G.Next, G.Inv;
      G.RunKeepsInv(trace);
      HolderFinishes(manager.View());
      Other(step);
    }

    // `process` as far as the protocol sees it: the session may be opened.
    method Process(others: Steps, opens: bool)
      requires Valid() && Pc().Processing?
      modifies this, manager
      ensures Valid() && old(trace) <= trace && Pc().Top?
      ensures manager.convs[i].sessionOpen == (old(manager.convs[i].sessionOpen) || opens)
    {
      hide G.Run, G.Next;
      if opens {
        RunSnoc(trace, G.OpenSession(i));
        manager.OpenSession(i);
        trace := trace + [G.OpenSession(i)];
      }
      Others(others);
      RunSnoc(trace, G.FinishMessage(i));
      manager.FinishMessage(i);
      trace := trace + [G.FinishMessage(i)];
    }

    // The select. A case that is not ready is not taken, and while none is
    // ready the worker waits. None means that the schedule ended first.
    method Select(waits: seq<Wait>, expected: Option<nat>) returns (taken: Option<Choice>)
      requires Valid() && Pc() == G.Waiting(expected)
      modifies this, manager
      ensures Valid() && old(trace) <= trace
      ensures match taken
              case None => Pc() == G.Waiting(expected)
              case Some(ContextDone) => Pc() == G.Leaving(false)
              case Some(Message) => Pc().Processing?
              // The timer evicts exactly what is idle.
              case Some(TimerFired) =>
                var idle := !manager.canceled && manager.convs[i].queue == [];
                expected.Some? && Pc() == if idle then G.Leaving(true) else G.Top
    {
      hide G.Run, G.Next, G.ManagerLockFree, G.Mapped;
      for k := 0 to |waits|
        invariant Valid() && old(trace) <= trace && Pc() == G.Waiting(expected)
      {
        Others(waits[k].others);
        match waits[k].choice {
          case ContextDone =>
            if manager.canceled {
              RunSnoc(trace, G.SelectCanceled(i));
              manager.SelectCanceled(i);
              trace := trace + [G.SelectCanceled(i)];
              return Some(ContextDone);
            }
          case Message =>
            if manager.convs[i].queue != [] {
              RunSnoc(trace, G.Receive(i));
              var msg := manager.Receive(i);
              trace := trace + [G.Receive(i)];
              return Some(Message);
            }
          case TimerFired =>
            if expected.Some? {
              AwaitLock([]);
              RunSnoc(trace, G.Tick(i));
              assert G.ReachedBy(trace, manager.View());
              Eviction.IdleEvicts(manager.View(), i, expected.value);
              var ok := manager.BeginEviction(i, expected.value);
              trace := trace + [G.Tick(i)];
              return Some(TimerFired);
            }
        }
      }
      taken := None;
    }

    method CloseRuntime(exit: Exit)
      requires Valid() && Pc().Leaving?
      modifies this, manager
      ensures Valid() && old(trace) <= trace && Pc().Removed?
    {
      hide G.Run, G.Next, G.ManagerLockFree;
      AwaitLock(exit.beforeMark);
      RunSnoc(trace, G.MarkClosing(i));
      manager.MarkClosing(i);
      trace := trace + [G.MarkClosing(i)];
      Others(exit.beforeClose);
      RunSnoc(trace, G.CloseSession(i));
      manager.CloseSession(i);
      trace := trace + [G.CloseSession(i)];
      AwaitLock(exit.beforeRemoval);
      RunSnoc(trace, G.FinishEviction(i));
      var count := manager.FinishEviction(i);
      trace := trace + [G.FinishEviction(i)];
    }

    // The context check at the top of the loop.
    method Check(others: Steps) returns (stop: bool)
      requires Valid() && Pc().Top?
      modifies this, manager
      ensures Valid() && old(trace) <= trace
      ensures Pc() == if stop then G.Leaving(false) else if hasTimer then G.Polling else G.Waiting(None)
    {
      hide G.Run, G.Next;
      Others(others);
      RunSnoc(trace, G.CheckContext(i, hasTimer));
      stop := manager.CheckContext(i, hasTimer);
      trace := trace + [G.CheckContext(i, hasTimer)];
    }

    // The idle snapshot.
    method Poll(others: Steps) returns (expected: Option<nat>)
      requires Valid() && Pc().Polling?
      modifies this, manager
      ensures Valid() && old(trace) <= trace && Pc() == G.Waiting(expected)
    {
      hide G.Run, G.Next;
      AwaitLock(others);
      RunSnoc(trace, G.PollIdle(i));
      expected := manager.PollIdle(i);
      trace := trace + [G.PollIdle(i)];
    }

    // One round of the loop; `stop` when the loop is left.
    method OneRound(round: Round) returns (stop: bool, waiting: bool)
      requires Valid() && Pc().Top?
      modifies this, manager
      ensures Valid() && old(trace) <= trace
      ensures !(stop && waiting)
      ensures if stop then Pc().Leaving? else if waiting then Pc().Waiting? else Pc().Top?
    {
      hide G.Run, G.Next, G.ManagerLockFree;
      stop := Check(round.beforeCheck);
      if stop {
        return true, false;
      }
      var expected: Option<nat> := None;
      if hasTimer {
        expected := Poll(round.beforePoll);
      }
      var taken := Select(round.waits, expected);
      if taken == None {
        return false, true;
      }
      match taken.value {
        case ContextDone =>
          return true, false;
        case Message =>
          Process(round.whileProcessing, round.opens);
        case TimerFired =>
          return Pc().Leaving?, false;
      }
      return false, false;
    }

    // The whole life of a worker, as long as the schedule lasts. It only ever
    // takes the steps of the protocol; when it is done its session is closed,
    // its key is free, and nobody's message is left behind unless the gateway
    // was canceled.
    method Run(rounds: seq<Round>, exit: Exit) returns (done: bool)
      requires Valid() && Pc().Top?
      modifies this, manager
      ensures Valid() && old(trace) <= trace
      ensures done <==> Pc().Done?
      ensures var c := manager.convs[i];
              done ==>
                && !c.sessionOpen && c.closing && !G.Mapped(manager.View(), i)
                && (Pc().evicted || !manager.canceled ==> c.queue == [] && c.dequeued == c.admitted)
    {
      hide G.Run, G.Next, G.Mapped, G.ManagerLockFree;
      done := false;
      var left := false;
      for k := 0 to |rounds|
        invariant Valid() && old(trace) <= trace && Pc().Top? && !left
      {
        var stop, waiting := OneRound(rounds[k]);
        if waiting {
          return false;
        }
        if stop {
          left := true;
          break;
        }
      }
      if !left {
        return false;
      }
      CloseRuntime(exit);
      Others(exit.beforeDone);
      RunSnoc(trace, G.WorkerDone(i));
      manager.WorkerDone(i);
      trace := trace + [G.WorkerDone(i)];
      WorkerIsGone(trace, i);
      done := true;
    }
  }

  lemma WorkerIsGone(trace: Steps, i: nat)
    requires i < |G.Run(trace).convs| && G.Run(trace).convs[i].pc.Done?
    ensures var s := G.Run(trace);
            var c := s.convs[i];
            && !c.sessionOpen && c.closing && !G.Mapped(s, i)
            && (c.pc.evicted || !s.canceled ==> c.queue == [] && c.dequeued == c.admitted)
  {
    hide G.Run, G.Mapped;
    G.RunKeepsInv(trace);
    G.InvConv(G.Run(trace), i);
    assert G.ReachedBy(trace, G.Run(trace));
    G.NoMessageLost(G.Run(trace), i);
  }
}
