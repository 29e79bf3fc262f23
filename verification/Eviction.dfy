/** Idle eviction: when a worker gives up its conversation, and that an idle one
    does leave (internal/gateway/lifecycle.go). */
module Eviction {
  import opened Basics
  import opened Gateway
  import opened GatewayProgress

  // The snapshot is taken exactly when nothing is queued, and is the number of
  // messages processed so far.
  lemma IdleIsSeen(s: State, i: nat)
    requires Reachable(s) && ManagerLockFree(s)
    requires i < |s.convs| && s.convs[i].pc == Polling
    ensures Next(s, PollIdle(i)).convs[i].pc
            == Waiting(if s.convs[i].queue == [] then Some(|s.convs[i].dequeued|) else None)
  {
    ReachableInv(s);
    InvConv(s, i);
    hide Inv;
  }

  // When the timer of a waiting worker fires, it evicts exactly an empty queue,
  // and nothing once the gateway is canceled.
  lemma IdleEvicts(s: State, i: nat, expected: nat)
    requires Reachable(s) && ManagerLockFree(s)
    requires i < |s.convs| && s.convs[i].pc == Waiting(Some(expected))
    ensures expected == |s.convs[i].dequeued|
    ensures var c, d := s.convs[i], Next(s, Tick(i)).convs[i];
            && d.pc == (if !s.canceled && c.queue == [] then Leaving(true) else Top)
            && (d.closing <==> !s.canceled && c.queue == [])
            && d.queue == c.queue && d.admitted == c.admitted && d.dequeued == c.dequeued
            && d.sessionOpen == c.sessionOpen
  {
    ReachableInv(s);
    InvConv(s, i);
    hide Inv;
  }

  function Departure(i: nat): seq<Step> {
    [Tick(i), MarkClosing(i), CloseSession(i), FinishEviction(i), WorkerDone(i)]
  }

  // What is left when conversation `i` has been evicted: its session is closed,
  // its key is free for a successor, and the others are as they were.
  function Evicted(s: State, i: nat): State
    requires i < |s.convs|
  {
    s.(convs := s.convs[i := s.convs[i].(closing := true, sessionOpen := false, pc := Done(true))],
       conversations := s.conversations - {s.convs[i].key}, workers := s.workers - 1)
  }

  // A worker whose timer fires over an empty queue, and that is left alone, ends.
  lemma IdleWorkerLeaves(s: State, i: nat, expected: nat)
    requires Reachable(s) && ManagerLockFree(s) && !s.canceled
    requires i < |s.convs| && s.convs[i].pc == Waiting(Some(expected)) && s.convs[i].queue == []
    ensures s.convs[i].key in s.conversations && After(s, Departure(i)) == Evicted(s, i)
  {
    ReachableInv(s);
    IdleFacts(s, i);
    hide Inv, Next, Reachable, SetConv, Mapped, After;
    AfterDeparture(s, i);
    TimerFires(s, i);
    SetConvIs(s, i, s.convs[i].(closing := true, pc := Leaving(true)));
    RuntimeCloses(Next(s, Tick(i)), i);
    MappedKey(s, i);
  }

  // So does the worker of any idle conversation, from the top of its loop.
  lemma IdleConversationLeaves(s: State, i: nat)
    requires Reachable(s) && ManagerLockFree(s) && !s.canceled
    requires i < |s.convs| && s.convs[i].pc == Top && s.convs[i].queue == []
    ensures After(s, [CheckContext(i, true)] + ([PollIdle(i)] + Departure(i))) == Evicted(s, i)
  {
    hide Next, Reachable, SetConv, After, Departure;
    var s1 := Next(s, CheckContext(i, true));
    var s2 := Next(s1, PollIdle(i));
    AfterCons(s, CheckContext(i, true), [PollIdle(i)] + Departure(i));
    AfterCons(s1, PollIdle(i), Departure(i));
    NextIsReachable(s, CheckContext(i, true));
    NextIsReachable(s1, PollIdle(i));
    ChecksContext(s, i);
    SetConvIs(s, i, s.convs[i].(pc := Polling));
    IdleIsSeen(s1, i);
    var pc := SnapshotChangesPc(s1, i);
    SetConvIs(s1, i, s1.convs[i].(pc := pc));
    IdleWorkerLeaves(s2, i, |s2.convs[i].dequeued|);
    SameEvicted(s, s2, i);
  }

  // A worker takes the oldest message that is waiting, and starts over after it.
  lemma MessageIsTaken(s: State, i: nat)
    requires i < |s.convs| && s.convs[i].pc.Waiting? && s.convs[i].queue != []
    ensures var c, d := s.convs[i], Next(s, Receive(i)).convs[i];
            && d.pc == Processing && [d.dequeued[|d.dequeued| - 1]] + d.queue == c.queue
            && Next(Next(s, Receive(i)), FinishMessage(i)).convs[i] == d.(pc := Top)
  {
  }

  lemma ChecksContext(s: State, i: nat)
    requires i < |s.convs| && s.convs[i].pc == Top && !s.canceled
    ensures Next(s, CheckContext(i, true)) == SetConv(s, i, s.convs[i].(pc := Polling))
  {
  }

  lemma SnapshotChangesPc(s: State, i: nat) returns (pc: WorkerPc)
    requires i < |s.convs|
    ensures Next(s, PollIdle(i)) == SetConv(s, i, s.convs[i].(pc := pc))
  {
    pc := Next(s, PollIdle(i)).convs[i].pc;
  }

  lemma SameEvicted(s: State, t: State, i: nat)
    requires i < |s.convs| && i < |t.convs| && t == SetConv(s, i, t.convs[i])
    requires t.convs[i] == s.convs[i].(pc := t.convs[i].pc)
    ensures Evicted(t, i) == Evicted(s, i)
  {
    assert Evicted(t, i).convs == Evicted(s, i).convs;
  }

  lemma TimerFires(s: State, i: nat)
    requires i < |s.convs| && s.convs[i].pc == Waiting(Some(s.convs[i].activitySeq)) && ManagerLockFree(s)
    requires Mapped(s, i) && !s.convs[i].closing && s.convs[i].queue == [] && !s.canceled
    ensures Next(s, Tick(i)) == SetConv(s, i, s.convs[i].(closing := true, pc := Leaving(true)))
  {
  }

  lemma RuntimeIsMarked(s: State, i: nat)
    requires i < |s.convs| && s.convs[i].pc == Leaving(true) && ManagerLockFree(s)
    ensures Next(s, MarkClosing(i)) == SetConv(s, i, s.convs[i].(closing := true, pc := Closing(true)))
  {
  }

  lemma SessionIsClosed(s: State, i: nat)
    requires i < |s.convs| && s.convs[i].pc == Closing(true)
    ensures Next(s, CloseSession(i)) == SetConv(s, i, s.convs[i].(sessionOpen := false, pc := Closed(true)))
  {
  }

  lemma KeyIsFreed(s: State, i: nat)
    requires i < |s.convs| && s.convs[i].pc == Closed(true) && ManagerLockFree(s) && Mapped(s, i)
    ensures Next(s, FinishEviction(i))
            == SetConv(s, i, s.convs[i].(pc := Removed(true))).(conversations := s.conversations - {s.convs[i].key})
  {
  }

  lemma WorkerLeaves(s: State, i: nat)
    requires i < |s.convs| && s.convs[i].pc == Removed(true)
    ensures Next(s, WorkerDone(i)) == SetConv(s, i, s.convs[i].(pc := Done(true))).(workers := s.workers - 1)
  {
  }

  lemma RuntimeCloses(s: State, i: nat)
    requires i < |s.convs| && s.convs[i].pc == Leaving(true) && ManagerLockFree(s) && Mapped(s, i)
    ensures var t := Next(Next(Next(Next(s, MarkClosing(i)), CloseSession(i)), FinishEviction(i)), WorkerDone(i));
            t == s.(convs := s.convs[i := s.convs[i].(closing := true, sessionOpen := false, pc := Done(true))],
                    conversations := s.conversations - {s.convs[i].key}, workers := s.workers - 1)
  {
    hide Next;
    RuntimeIsMarked(s, i);
    var s1 := Next(s, MarkClosing(i));
    SessionIsClosed(s1, i);
    var s2 := Next(s1, CloseSession(i));
    KeyIsFreed(s2, i);
    WorkerLeaves(Next(s2, FinishEviction(i)), i);
  }

  lemma IdleFacts(s: State, i: nat)
    requires Inv(s) && ManagerLockFree(s)
    requires i < |s.convs| && s.convs[i].pc.Waiting? && s.convs[i].pc.expected.Some? && s.convs[i].queue == []
    ensures Mapped(s, i) && !s.convs[i].closing && s.convs[i].pc.expected.value == s.convs[i].activitySeq
  {
    InvConv(s, i);
    hide Inv;
  }

  lemma MappedKey(s: State, i: nat)
    requires i < |s.convs| && Mapped(s, i)
    ensures s.convs[i].key in s.conversations
  {
  }

  lemma SetConvIs(s: State, i: nat, c: Conv)
    requires i < |s.convs| && c.key == s.convs[i].key
    ensures var t := SetConv(s, i, c);
            && |t.convs| == |s.convs| && t.convs[i] == c
            && t.conversations == s.conversations && t.workers == s.workers && t.canceled == s.canceled
            && Mapped(t, i) == Mapped(s, i) && ManagerLockFree(t) == ManagerLockFree(s)
            && forall d :: SetConv(t, i, d) == SetConv(s, i, d)
  {
    forall d: Conv
      ensures SetConv(SetConv(s, i, c), i, d) == SetConv(s, i, d)
    {
      assert s.convs[i := c][i := d] == s.convs[i := d];
    }
  }

  lemma AfterDeparture(s: State, i: nat)
    ensures After(s, Departure(i))
            == Next(Next(Next(Next(Next(s, Tick(i)), MarkClosing(i)), CloseSession(i)), FinishEviction(i)), WorkerDone(i))
  {
    hide Next, After;
    AfterNone(s);
    var fired, marked := [] + [Tick(i)], [] + [Tick(i)] + [MarkClosing(i)];
    AfterSnoc(s, [], Tick(i));
    AfterSnoc(s, fired, MarkClosing(i));
    AfterSnoc(s, marked, CloseSession(i));
    AfterSnoc(s, marked + [CloseSession(i)], FinishEviction(i));
    AfterSnoc(s, marked + [CloseSession(i)] + [FinishEviction(i)], WorkerDone(i));
    assert marked + [CloseSession(i)] + [FinishEviction(i)] + [WorkerDone(i)] == Departure(i);
  }

  lemma AfterNone(s: State)
    ensures After(s, []) == s
  {
  }

  lemma {:induction false} AfterSnoc(s: State, steps: seq<Step>, step: Step)
    ensures After(s, steps + [step]) == Next(After(s, steps), step)
  {
    hide Next;
    assert (steps + [step])[..|steps|] == steps;
  }
}
