/** Human approvals (internal/approval/manager.go): waiters register, replies
    resolve, and both may be late, repeated or racing. */
module Approval {
  import opened Basics

  datatype Key = Key(sessionId: string, taskId: string)

  // Where a call of `Wait` is once it has registered.
  datatype Phase =
    | Notifying
    | Waiting                  // in the select
    | Received(allowed: bool)  // took a result, context not yet checked again
    | Leaving(allowed: bool)   // answer fixed, deferred removal still to run
    | Returned(allowed: bool)

  // `slot` is the buffered channel; `replies` records every accepted reply.
  datatype Registration = Registration(
    key: Key,
    expired: bool,
    slot: Option<bool>,
    phase: Phase,
    replies: seq<bool>)

  datatype State = State(pending: map<Key, nat>, regs: seq<Registration>)

  const INIT := State(map[], [])

  datatype Step =
    | Register(key: Key)
    | Notified(reg: nat, ok: bool)
    | Expire(reg: nat)
    | TakeResult(reg: nat)
    | GiveUp(reg: nat)
    | Decide(reg: nat)
    | Unregister(reg: nat)
    | Resolve(key: Key, allowed: bool)

  function SetReg(s: State, i: nat, r: Registration): State
    requires i < |s.regs|
  {
    s.(regs := s.regs[i := r])
  }

  function RegisterStep(s: State, key: Key): State {
    if key in s.pending then s
    else State(s.pending[key := |s.regs|], s.regs + [Registration(key, false, None, Notifying, [])])
  }

  // What one waiter does on its own.
  function Move(r: Registration, step: Step): Registration {
    match step
    case Notified(_, ok) => if r.phase.Notifying? then r.(phase := if ok then Waiting else Leaving(false)) else r
    case Expire(_) => r.(expired := true)
    case TakeResult(_) =>
      if r.phase.Waiting? && r.slot.Some? then r.(phase := Received(r.slot.value), slot := None) else r
    case GiveUp(_) => if r.phase.Waiting? && r.expired then r.(phase := Leaving(false)) else r
    case Decide(_) => if r.phase.Received? then r.(phase := Leaving(!r.expired && r.phase.allowed)) else r
    case _ => r
  }

  predicate IsMove(step: Step) {
    step.Notified? || step.Expire? || step.TakeResult? || step.GiveUp? || step.Decide?
  }

  predicate Mapped(s: State, i: nat)
    requires i < |s.regs|
  {
    s.regs[i].key in s.pending && s.pending[s.regs[i].key] == i
  }

  function UnregisterStep(s: State, i: nat): State {
    if i < |s.regs| && s.regs[i].phase.Leaving? then
      var t := SetReg(s, i, s.regs[i].(phase := Returned(s.regs[i].phase.allowed)));
      if Mapped(s, i) then t.(pending := s.pending - {s.regs[i].key}) else t
    else s
  }

  // A reply is accepted when it finds a live registration with an empty slot.
  predicate Accepts(s: State, key: Key) {
    key in s.pending && s.pending[key] < |s.regs| && !s.regs[s.pending[key]].expired
    && s.regs[s.pending[key]].slot.None?
  }

  function ResolveStep(s: State, key: Key, allowed: bool): State {
    if key !in s.pending || s.pending[key] >= |s.regs| then s
    else
      var i := s.pending[key];
      var r := s.regs[i];
      var t := if Accepts(s, key) then SetReg(s, i, r.(slot := Some(allowed), replies := r.replies + [allowed])) else s;
      t.(pending := s.pending - {key})
  }

  function Next(s: State, step: Step): State {
    match step
    case Register(key) => RegisterStep(s, key)
    case Unregister(i) => UnregisterStep(s, i)
    case Resolve(key, allowed) => ResolveStep(s, key, allowed)
    case Notified(i, _) => if i < |s.regs| then SetReg(s, i, Move(s.regs[i], step)) else s
    case Expire(i) => if i < |s.regs| then SetReg(s, i, Move(s.regs[i], step)) else s
    case TakeResult(i) => if i < |s.regs| then SetReg(s, i, Move(s.regs[i], step)) else s
    case GiveUp(i) => if i < |s.regs| then SetReg(s, i, Move(s.regs[i], step)) else s
    case Decide(i) => if i < |s.regs| then SetReg(s, i, Move(s.regs[i], step)) else s
  }

  function Run(steps: seq<Step>): State {
    if steps == [] then INIT else Next(Run(steps[..|steps| - 1]), steps[|steps| - 1])
  }

  // ---------- the invariant ----------

  // Still in time, without a reply, and its Wait has not returned.
  predicate Live(r: Registration) {
    !r.expired && r.replies == [] && !r.phase.Returned?
  }

  predicate RegOk(r: Registration, mapped: bool) {
    && |r.replies| <= 1
    && (mapped ==> r.replies == [] && !r.phase.Returned?)
    && (Live(r) ==> mapped)
    && (r.slot.Some? ==> r.replies == [r.slot.value] && (r.phase.Notifying? || r.phase.Waiting? || r.phase == Leaving(false)
                                                       || r.phase == Returned(false)))
    && (r.phase.Received? ==> r.replies == [r.phase.allowed])
    && (r.phase == Leaving(true) || r.phase == Returned(true) ==> r.replies == [true])
  }

  predicate Inv(s: State) {
    && (forall i :: 0 <= i < |s.regs| ==> RegOk(s.regs[i], Mapped(s, i)))
    && (forall k :: k in s.pending ==> s.pending[k] < |s.regs| && s.regs[s.pending[k]].key == k)
  }

  lemma MoveKeepsOk(r: Registration, step: Step, mapped: bool)
    requires RegOk(r, mapped)
    ensures RegOk(Move(r, step), mapped) && Move(r, step).key == r.key && Move(r, step).replies == r.replies
  {
  }

  lemma NextOfMove(s: State, step: Step)
    requires IsMove(step)
    ensures Next(s, step) == if step.reg < |s.regs| then SetReg(s, step.reg, Move(s.regs[step.reg], step)) else s
  {
  }

  lemma MovesKeepInv(s: State, step: Step)
    requires Inv(s) && IsMove(step)
    ensures Inv(Next(s, step))
  {
    NextOfMove(s, step);
    var i := step.reg;
    if i < |s.regs| {
      MoveKeepsOk(s.regs[i], step, Mapped(s, i));
      hide RegOk, Move, Next;
      var t := SetReg(s, i, Move(s.regs[i], step));
      assert forall j :: 0 <= j < |t.regs| ==> Mapped(t, j) == Mapped(s, j);
    } else {
      hide Next, Inv;
    }
  }

  lemma NextKeepsInv(s: State, step: Step)
    requires Inv(s)
    ensures Inv(Next(s, step))
  {
    match step
    case Register(key) => RegisterKeepsInv(s, key);
    case Unregister(i) => UnregisterKeepsInv(s, i);
    case Resolve(key, allowed) => ResolveKeepsInv(s, key, allowed);
    case _ => MovesKeepInv(s, step);
  }

  lemma RegisterKeepsInv(s: State, key: Key)
    requires Inv(s)
    ensures Inv(Next(s, Register(key)))
  {
    var t := Next(s, Register(key));
    if key !in s.pending {
      forall j | 0 <= j < |t.regs|
        ensures RegOk(t.regs[j], Mapped(t, j))
      {
        assert j < |s.regs| ==> t.regs[j] == s.regs[j] && RegOk(s.regs[j], Mapped(s, j));
      }
    }
  }

  lemma UnmappedOk(r: Registration, mapped: bool)
    requires RegOk(r, mapped)
    ensures r.expired ==> RegOk(r, false)
    ensures r.phase.Leaving? ==> RegOk(r.(phase := Returned(r.phase.allowed)), false)
    ensures mapped ==> forall allowed :: RegOk(r.(slot := Some(allowed), replies := [allowed]), false)
    ensures mapped ==> r.slot.None? && !r.phase.Received? && r.phase != Leaving(true)
  {
  }

  lemma UnregisterKeepsInv(s: State, i: nat)
    requires Inv(s)
    ensures Inv(Next(s, Unregister(i)))
  {
    var t := Next(s, Unregister(i));
    if t != s {
      UnmappedOk(s.regs[i], Mapped(s, i));
      hide RegOk;
      forall j | 0 <= j < |t.regs|
        ensures RegOk(t.regs[j], Mapped(t, j))
      {
        assert RegOk(s.regs[j], Mapped(s, j));
        assert j != i ==> t.regs[j] == s.regs[j] && Mapped(t, j) == Mapped(s, j);
        assert !Mapped(t, i);
      }
    }
  }

  lemma ResolveKeepsInv(s: State, key: Key, allowed: bool)
    requires Inv(s)
    ensures Inv(Next(s, Resolve(key, allowed)))
  {
    var t := Next(s, Resolve(key, allowed));
    if key in s.pending {
      var i := s.pending[key];
      assert RegOk(s.regs[i], Mapped(s, i));
      UnmappedOk(s.regs[i], true);
      NoReplies(s.regs[i], allowed);
      hide RegOk;
      forall j | 0 <= j < |t.regs|
        ensures RegOk(t.regs[j], Mapped(t, j))
      {
        assert RegOk(s.regs[j], Mapped(s, j));
        assert j != i ==> t.regs[j] == s.regs[j] && Mapped(t, j) == Mapped(s, j);
        assert !Mapped(t, i);
      }
    }
  }

  lemma NoReplies(r: Registration, allowed: bool)
    requires RegOk(r, true)
    ensures r.replies + [allowed] == [allowed]
  {
  }

  lemma {:induction false} RunKeepsInv(steps: seq<Step>)
    ensures Inv(Run(steps))
    decreases |steps|
  {
    hide Next, RegOk;
    if steps != [] {
      RunKeepsInv(steps[..|steps| - 1]);
      NextKeepsInv(Run(steps[..|steps| - 1]), steps[|steps| - 1]);
    }
  }

  lemma RunRegOk(steps: seq<Step>, i: nat)
    requires i < |Run(steps).regs|
    ensures RegOk(Run(steps).regs[i], Mapped(Run(steps), i))
  {
    hide Run, RegOk;
    RunKeepsInv(steps);
  }

  // ---------- what every run keeps ----------

  // Wait returns allowed only on an accepted approval of that very
  // registration; each is resolved at most once and gone when its Wait returns.
  lemma AllowedMeansApproved(steps: seq<Step>, i: nat)
    requires i < |Run(steps).regs|
    ensures var s := Run(steps);
            && (s.regs[i].phase == Returned(true) ==> s.regs[i].replies == [true])
            && |s.regs[i].replies| <= 1
            && (s.regs[i].phase.Returned? ==> !Mapped(s, i))
            && (s.regs[i].replies != [] ==> !Mapped(s, i))
  {
    hide Run;
    RunRegOk(steps, i);
  }

  // A reply is recorded only by the Resolve step that carries it, to the
  // registration that step finds.
  lemma RepliesComeFromResolve(steps: seq<Step>, step: Step, i: nat)
    requires i < |Run(steps).regs|
    requires Next(Run(steps), step).regs[i].replies != Run(steps).regs[i].replies
    ensures var s := Run(steps);
            && step.Resolve? && step.key == s.regs[i].key && Mapped(s, i) && !s.regs[i].expired
            && Next(s, step).regs[i].replies == [step.allowed]
  {
    hide Run;
    RunKeepsInv(steps);
    RunRegOk(steps, i);
    var s := Run(steps);
    if IsMove(step) {
      NextOfMove(s, step);
      if step.reg < |s.regs| {
        RunRegOk(steps, step.reg);
        MoveKeepsOk(s.regs[step.reg], step, Mapped(s, step.reg));
      }
      hide Move, Next;
    } else if step.Resolve? && step.key in s.pending {
      var j := s.pending[step.key];
      assert s.regs[j].key == step.key;
    }
  }

  // The channel of a registration a reply finds is always empty, so the
  // non-blocking send never takes its default branch: a reply is refused only
  // for want of a live registration.
  lemma SendNeverBlocks(steps: seq<Step>, key: Key)
    requires key in Run(steps).pending
    ensures var s := Run(steps);
            && s.pending[key] < |s.regs| && s.regs[s.pending[key]].slot.None?
            && (Accepts(s, key) <==> !s.regs[s.pending[key]].expired)
  {
    hide Run;
    RunKeepsInv(steps);
    var s := Run(steps);
    var i := s.pending[key];
    assert RegOk(s.regs[i], Mapped(s, i));
  }

  // A waiter that leaves removes nothing but its own registration.
  lemma OldWaiterIsHarmless(steps: seq<Step>, i: nat, key: Key)
    requires key in Run(steps).pending && Run(steps).pending[key] != i
    ensures var t := Next(Run(steps), Unregister(i)); key in t.pending && t.pending[key] == Run(steps).pending[key]
  {
  }

  // Of two registrations with one key at most one is live: a request cannot be
  // doubled while its first asker still waits for an answer in time.
  lemma OneLivePerKey(steps: seq<Step>, i: nat, j: nat)
    requires i < |Run(steps).regs| && j < |Run(steps).regs|
    requires Run(steps).regs[i].key == Run(steps).regs[j].key
    requires Live(Run(steps).regs[i]) && Live(Run(steps).regs[j])
    ensures i == j
  {
    hide Run;
    RunRegOk(steps, i);
    RunRegOk(steps, j);
  }

  // Whatever happened before, the reply to a live request reaches that very
  // registration, and no other.
  lemma ReplyReachesLive(steps: seq<Step>, i: nat, allowed: bool)
    requires i < |Run(steps).regs| && Live(Run(steps).regs[i])
    ensures var s := Run(steps);
            var t := Next(s, Resolve(s.regs[i].key, allowed));
            && t.regs[i].slot == Some(allowed) && t.regs[i].replies == [allowed]
            && forall j :: 0 <= j < |s.regs| && j != i ==> t.regs[j] == s.regs[j]
  {
    hide Run;
    RunRegOk(steps, i);
    NoReplies(Run(steps).regs[i], allowed);
  }

  lemma RunSnoc(steps: seq<Step>, step: Step)
    ensures Run(steps + [step]) == Next(Run(steps), step)
  {
    hide Next;
    assert (steps + [step])[..|steps|] == steps;
  }

  // The answer given in time to a waiting request is what its Wait returns, and
  // the key is free again.
  lemma TimelyReplyDecides(steps: seq<Step>, i: nat, allowed: bool)
    requires i < |Run(steps).regs| && Live(Run(steps).regs[i]) && Run(steps).regs[i].phase == Waiting
    ensures var s := Run(steps);
            var t := Run(steps + [Resolve(s.regs[i].key, allowed)] + [TakeResult(i)] + [Decide(i)] + [Unregister(i)]);
            && t.regs == s.regs[i := s.regs[i].(phase := Returned(allowed), replies := [allowed])]
            && t.pending == s.pending - {s.regs[i].key}
  {
    hide Run;
    var s := Run(steps);
    var key := s.regs[i].key;
    RunRegOk(steps, i);
    NoReplies(s.regs[i], allowed);
    hide RegOk;
    RunSnoc(steps, Resolve(key, allowed));
    RunSnoc(steps + [Resolve(key, allowed)], TakeResult(i));
    RunSnoc(steps + [Resolve(key, allowed)] + [TakeResult(i)], Decide(i));
    RunSnoc(steps + [Resolve(key, allowed)] + [TakeResult(i)] + [Decide(i)], Unregister(i));
    AnswerReturns(s, i, allowed);
  }

  lemma AnswerReturns(s: State, i: nat, allowed: bool)
    requires i < |s.regs| && Mapped(s, i) && Live(s.regs[i]) && s.regs[i].phase == Waiting && s.regs[i].slot.None?
    ensures var s1 := Next(s, Resolve(s.regs[i].key, allowed));
            var t := Next(Next(Next(s1, TakeResult(i)), Decide(i)), Unregister(i));
            && t.regs == s.regs[i := s.regs[i].(phase := Returned(allowed), replies := [allowed])]
            && t.pending == s.pending - {s.regs[i].key}
  {
    var r, p := s.regs[i], s.pending - {s.regs[i].key};
    assert r.replies + [allowed] == [allowed];
    var s1 := Next(s, Resolve(r.key, allowed));
    assert s1 == State(p, s.regs[i := r.(slot := Some(allowed), replies := [allowed])]);
    var s2 := Next(s1, TakeResult(i));
    assert s2 == State(p, s.regs[i := r.(phase := Received(allowed), replies := [allowed])]);
    var s3 := Next(s2, Decide(i));
    assert s3 == State(p, s.regs[i := r.(phase := Leaving(allowed), replies := [allowed])]);
  }

  // Without an answer a Wait returns a denial: when its notice could not be
  // sent, or when it gives up after its time.
  lemma UnansweredIsDenied(steps: seq<Step>, i: nat)
    requires i < |Run(steps).regs|
    ensures var s := Run(steps);
            var unsent, late := Run(steps + [Notified(i, false)] + [Unregister(i)]), Run(steps + [GiveUp(i)] + [Unregister(i)]);
            && (s.regs[i].phase == Notifying ==> unsent.regs == s.regs[i := s.regs[i].(phase := Returned(false))]
                                                 && (Mapped(s, i) ==> s.regs[i].key !in unsent.pending))
            && (s.regs[i].phase == Waiting && s.regs[i].expired ==>
                  late.regs == s.regs[i := s.regs[i].(phase := Returned(false))]
                  && (Mapped(s, i) ==> s.regs[i].key !in late.pending))
  {
    hide Run;
    RunSnoc(steps, Notified(i, false));
    RunSnoc(steps + [Notified(i, false)], Unregister(i));
    RunSnoc(steps, GiveUp(i));
    RunSnoc(steps + [GiveUp(i)], Unregister(i));
  }

  // A request that ran out of time before its Wait looked again is denied,
  // whatever replies it has and whatever happens afterwards.
  predicate Denied(r: Registration) {
    r.expired && r.phase != Leaving(true) && r.phase != Returned(true)
  }

  lemma {:induction false} ExpiredIsDenied(steps: seq<Step>, more: seq<Step>, i: nat)
    requires i < |Run(steps).regs| && Denied(Run(steps).regs[i])
    ensures i < |Run(steps + more).regs| && Denied(Run(steps + more).regs[i])
    decreases |more|
  {
    hide Run, Next;
    if more == [] {
      assert steps + more == steps;
    } else {
      var n := |more| - 1;
      assert steps + more == steps + more[..n] + [more[n]];
      ExpiredIsDenied(steps, more[..n], i);
      RunSnoc(steps + more[..n], more[n]);
      DeniedStays(Run(steps + more[..n]), more[n], i);
    }
  }

  lemma DeniedStays(s: State, step: Step, i: nat)
    requires i < |s.regs| && Denied(s.regs[i])
    ensures i < |Next(s, step).regs| && Denied(Next(s, step).regs[i])
  {
    if IsMove(step) {
      NextOfMove(s, step);
      hide Next;
    }
  }

  // Being in time matters: once a reply came too late for an expired request,
  // its key can be registered again while the old Wait has not yet returned.
  lemma ExpiredMayCoexist(key: Key)
    ensures var s := Run([Register(key), Expire(0), Resolve(key, true), Register(key)]);
            && |s.regs| == 2 && s.regs[0].key == s.regs[1].key == key
            && !s.regs[0].phase.Returned? && s.regs[0].replies == [] && Live(s.regs[1])
  {
    var one, two, three := [Register(key)], [Register(key), Expire(0)], [Register(key), Expire(0), Resolve(key, true)];
    var four := three + [Register(key)];
    assert one[..0] == [] && two[..1] == one && three[..2] == two && four[..3] == three;
    assert Run(one).regs == [Registration(key, false, None, Notifying, [])];
    assert Run(two).regs == [Registration(key, true, None, Notifying, [])];
    assert Run(three).regs == Run(two).regs && key !in Run(three).pending;
    assert Run(four) == Next(Run(three), Register(key));
    assert four == [Register(key), Expire(0), Resolve(key, true), Register(key)];
  }

  // ---------- the object ----------

  class ApprovalManager {
    var pendingTasks: map<Key, nat>

    // The waiters' own state.
    var regs: seq<Registration>

    ghost function View(): State
      reads this
    {
      State(pendingTasks, regs)
    }

    constructor ()
      ensures View() == INIT
    {
      pendingTasks := map[];
      regs := [];
    }

    method RegisterPending(key: Key) returns (ok: bool)
      modifies this
      ensures View() == Next(old(View()), Register(key))
      ensures ok <==> key !in old(pendingTasks)
    {
      if key in pendingTasks {
        return false;
      }
      pendingTasks := pendingTasks[key := |regs|];
      regs := regs + [Registration(key, false, None, Notifying, [])];
      return true;
    }

    // The deferred function of `Wait`.
    method RemovePending(i: nat)
      requires i < |regs| && regs[i].phase.Leaving?
      modifies this
      ensures View() == Next(old(View()), Unregister(i))
    {
      var r := regs[i];
      if r.key in pendingTasks && pendingTasks[r.key] == i {
        pendingTasks := pendingTasks - {r.key};
      }
      regs := regs[i := r.(phase := Returned(r.phase.allowed))];
    }

    method ResolvePending(key: Key, allowed: bool) returns (ok: bool)
      requires Inv(View())
      modifies this
      ensures View() == Next(old(View()), Resolve(key, allowed))
      ensures Inv(View())
      ensures ok <==> Accepts(old(View()), key)
      ensures key !in pendingTasks
    {
      ResolveKeepsInv(View(), key, allowed);
      if key !in pendingTasks {
        return false;
      }
      hide RegOk;
      var i := pendingTasks[key];
      pendingTasks := pendingTasks - {key};
      if regs[i].expired {
        return false;
      }
      if regs[i].slot.Some? {
        return false;
      }
      regs := regs[i := regs[i].(slot := Some(allowed), replies := regs[i].replies + [allowed])];
      return true;
    }
  }
}
