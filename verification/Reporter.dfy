/** Presentation order (internal/delivery/reporter.go): an acceptance notice
    reserves its place before the task is queued, and no report of a
    conversation is sent while a reservation is outstanding. */
module Reporter {
  import opened Basics

  // A report on its way: it looks at the channel, waits for it, or is sent.
  datatype SendPc = Checking | Blocked(channel: nat) | Sending | GaveUp

  // `task` is the reservation of the task the report belongs to.
  datatype Report = Report(task: nat, pc: SendPc)

  // `done` is acceptedDone: the number of a channel. Channels are numbered in
  // the order they are made; `closed` are those closed so far.
  datatype State = State(
    pending: int,
    done: Option<nat>,
    made: nat,
    closed: set<nat>,
    released: seq<bool>,
    reports: seq<Report>)

  const INIT := State(0, None, 0, {}, [], [])

  datatype Step =
    | PrepareAccepted
    | Release(task: nat)   // either callback, any number of times
    | StartReport(task: nat)
    | Check(report: nat)
    | Wake(report: nat)
    | Cancel(report: nat)

  function Next(s: State, step: Step): State {
    match step
    case PrepareAccepted =>
      s.(done := if s.pending == 0 then Some(s.made) else s.done,
         made := if s.pending == 0 then s.made + 1 else s.made,
         pending := s.pending + 1,
         released := s.released + [false])
    case Release(i) =>
      if i >= |s.released| || s.released[i] then s
      else
        var t := s.(released := s.released[i := true], pending := s.pending - 1);
        if t.pending == 0 then
          t.(closed := if s.done.Some? then s.closed + {s.done.value} else s.closed, done := None)
        else t
    case StartReport(i) =>
      if i < |s.released| then s.(reports := s.reports + [Report(i, Checking)]) else s
    case Check(r) =>
      if r < |s.reports| && s.reports[r].pc.Checking? then
        s.(reports := s.reports[r := s.reports[r].(pc := if s.done.None? then Sending else Blocked(s.done.value))])
      else s
    case Wake(r) =>
      if r < |s.reports| && s.reports[r].pc.Blocked? && s.reports[r].pc.channel in s.closed then
        s.(reports := s.reports[r := s.reports[r].(pc := Checking)])
      else s
    case Cancel(r) =>
      if r < |s.reports| && s.reports[r].pc.Blocked? then
        s.(reports := s.reports[r := s.reports[r].(pc := GaveUp)])
      else s
  }

  function Run(steps: seq<Step>): State {
    if steps == [] then INIT else Next(Run(steps[..|steps| - 1]), steps[|steps| - 1])
  }

  function Outstanding(released: seq<bool>): nat {
    if released == [] then 0
    else (if released[|released| - 1] then 0 else 1) + Outstanding(released[..|released| - 1])
  }

  predicate ReportOk(s: State, r: Report) {
    && r.task < |s.released|
    && (r.pc.Sending? ==> s.released[r.task])
    && (r.pc.Blocked? ==> r.pc.channel < s.made)
  }

  predicate Inv(s: State) {
    && s.pending == Outstanding(s.released)
    && (s.done.Some? <==> s.pending > 0)
    && (s.done.Some? ==> s.done.value < s.made)
    // every channel but the current one has been closed, and that one not
    && (forall c :: 0 <= c < s.made ==> (c in s.closed <==> s.done != Some(c)))
    && (forall c :: c in s.closed ==> c < s.made)
    && (forall i :: 0 <= i < |s.reports| ==> ReportOk(s, s.reports[i]))
  }

  lemma {:induction false} ReleaseCounts(released: seq<bool>, i: nat)
    requires i < |released| && !released[i]
    ensures Outstanding(released[i := true]) == Outstanding(released) - 1
  {
    var n := |released| - 1;
    if i < n {
      assert released[i := true][..n] == released[..n][i := true];
      ReleaseCounts(released[..n], i);
    } else {
      assert released[i := true][..n] == released[..n];
    }
  }

  lemma {:induction false} NoneOutstanding(released: seq<bool>)
    requires Outstanding(released) == 0
    ensures forall i :: 0 <= i < |released| ==> released[i]
  {
    if released != [] {
      NoneOutstanding(released[..|released| - 1]);
    }
  }

  lemma NextKeepsInv(s: State, step: Step)
    requires Inv(s)
    ensures Inv(Next(s, step))
  {
    match step
    case PrepareAccepted => PrepareKeepsInv(s);
    case Release(i) => ReleaseKeepsInv(s, i);
    case _ => ReportStepsKeepInv(s, step);
  }

  lemma PrepareKeepsInv(s: State)
    requires Inv(s)
    ensures Inv(Next(s, PrepareAccepted))
  {
    hide Outstanding;
    OutstandingSnoc(s.released);
    var t := Next(s, PrepareAccepted);
    assert t.released[..|s.released|] == s.released;
  }

  lemma OutstandingSnoc(released: seq<bool>)
    ensures Outstanding(released + [false]) == Outstanding(released) + 1
  {
    assert (released + [false])[..|released|] == released;
  }

  lemma ReleaseKeepsInv(s: State, i: nat)
    requires Inv(s)
    ensures Inv(Next(s, Release(i)))
  {
    if i < |s.released| && !s.released[i] {
      ReleaseCounts(s.released, i);
    }
  }

  lemma ReportStepsKeepInv(s: State, step: Step)
    requires Inv(s)
    requires !step.PrepareAccepted? && !step.Release?
    ensures Inv(Next(s, step))
  {
    NoneOutstandingIf(s);
  }

  lemma NoneOutstandingIf(s: State)
    requires Inv(s)
    ensures s.done.None? ==> forall i :: 0 <= i < |s.released| ==> s.released[i]
  {
    if s.done.None? {
      NoneOutstanding(s.released);
    }
  }

  lemma {:induction false} RunKeepsInv(steps: seq<Step>)
    ensures Inv(Run(steps))
    decreases |steps|
  {
    hide Next, ReportOk;
    if steps != [] {
      RunKeepsInv(steps[..|steps| - 1]);
      NextKeepsInv(Run(steps[..|steps| - 1]), steps[|steps| - 1]);
    }
  }

  // acceptedDone is set exactly while reservations are outstanding, and the
  // counter is their number: each was released once, however often called.
  lemma DoneWhilePending(steps: seq<Step>)
    ensures var s := Run(steps);
            && s.pending == Outstanding(s.released)
            && (s.done.Some? <==> exists i :: 0 <= i < |s.released| && !s.released[i])
  {
    hide Run;
    RunKeepsInv(steps);
    var s := Run(steps);
    NoneOutstandingIf(s);
    AllReleased(s.released);
  }

  lemma {:induction false} AllReleased(released: seq<bool>)
    ensures (forall i :: 0 <= i < |released| ==> released[i]) ==> Outstanding(released) == 0
  {
    if released != [] {
      AllReleased(released[..|released| - 1]);
    }
  }

  // No report of a task is sent while the notice of that task is outstanding.
  lemma ReportsFollowNotice(steps: seq<Step>, r: nat)
    requires r < |Run(steps).reports| && Run(steps).reports[r].pc.Sending?
    ensures var s := Run(steps); s.reports[r].task < |s.released| && s.released[s.reports[r].task]
  {
    hide Run;
    RunKeepsInv(steps);
    assert ReportOk(Run(steps), Run(steps).reports[r]);
  }

  // No wake-up is lost: a report waits either for the current channel, or for
  // one that is already closed.
  lemma NoLostWakeup(steps: seq<Step>, r: nat)
    requires r < |Run(steps).reports| && Run(steps).reports[r].pc.Blocked?
    ensures var s := Run(steps); s.reports[r].pc.channel in s.closed || s.done == Some(s.reports[r].pc.channel)
    ensures Run(steps).pending == 0 ==> Next(Run(steps), Wake(r)).reports[r].pc.Checking?
  {
    hide Run;
    RunKeepsInv(steps);
    assert ReportOk(Run(steps), Run(steps).reports[r]);
  }

  // ---------- every reservation released ----------

  lemma {:induction false} ReleasedStays(steps: seq<Step>, k: nat, i: nat)
    requires k < |steps| && steps[k] == Release(i) && i < |Run(steps[..k]).released|
    ensures i < |Run(steps).released| && Run(steps).released[i]
    decreases |steps|
  {
    var n := |steps| - 1;
    if k < n {
      assert steps[..n][..k] == steps[..k];
      ReleasedStays(steps[..n], k, i);
    }
  }

  // Some callback of the reservation has been called after it was made.
  predicate CalledBack(steps: seq<Step>, i: nat) {
    exists k :: 0 <= k < |steps| && steps[k] == Release(i) && i < |Run(steps[..k]).released|
  }

  // Admission discards a reservation it refuses, and Receive notifies for one it
  // accepts: once a callback of each was called, in whatever order and however
  // often, nothing is pending and no report waits for an open channel.
  lemma AllCalledBack(steps: seq<Step>)
    requires forall i :: 0 <= i < |Run(steps).released| ==> CalledBack(steps, i)
    ensures var s := Run(steps);
            && s.pending == 0 && s.done == None
            && forall r :: 0 <= r < |s.reports| && s.reports[r].pc.Blocked? ==> s.reports[r].pc.channel in s.closed
  {
    hide Run;
    var s := Run(steps);
    forall i | 0 <= i < |s.released| ensures s.released[i] {
      assert CalledBack(steps, i);
      var k :| 0 <= k < |steps| && steps[k] == Release(i) && i < |Run(steps[..k]).released|;
      ReleasedStays(steps, k, i);
    }
    DoneWhilePending(steps);
    AllReleased(s.released);
    forall r | 0 <= r < |s.reports| && s.reports[r].pc.Blocked? ensures s.reports[r].pc.channel in s.closed {
      NoLostWakeup(steps, r);
    }
  }

  // Then a report that was blocked can wake up and is sent.
  lemma BlockedIsSent(steps: seq<Step>, r: nat)
    requires forall i :: 0 <= i < |Run(steps).released| ==> CalledBack(steps, i)
    requires r < |Run(steps).reports| && Run(steps).reports[r].pc.Blocked?
    ensures Run(steps + [Wake(r), Check(r)]).reports
            == Run(steps).reports[r := Run(steps).reports[r].(pc := Sending)]
  {
    hide CalledBack;
    AllCalledBack(steps);
    var all := steps + [Wake(r), Check(r)];
    assert all[..|steps| + 1] == steps + [Wake(r)] && (steps + [Wake(r)])[..|steps|] == steps;
    assert Run(all) == Next(Next(Run(steps), Wake(r)), Check(r));
  }

  // ---------- admission and Receive call back ----------

  // The thread that made a reservation: still in `enqueue`, back in `Receive`
  // with the notice to send, or through.
  datatype Call = Enqueuing | Notifying | Over

  // `calls` has one entry for each reservation.
  datatype Callers = Callers(reporter: State, calls: seq<Call>)

  datatype Act =
    | Reserve          // PrepareAccepted, in `enqueue`
    | Refuse(task: nat) // the queue is full: discard
    | Accept(task: nat) // the queue took the message: the notice goes to `Receive`
    | Notify(task: nat) // the notice was sent or failed; its deferred callback runs
    | Again(task: nat)  // a callback is called once more
    | Other(step: Step) // a step of a report

  predicate CallIs(c: Callers, task: nat, call: Call) {
    task < |c.calls| && c.calls[task] == call
  }

  function Through(c: Callers, task: nat): Callers
    requires task < |c.calls|
  {
    Callers(Next(c.reporter, Release(task)), c.calls[task := Over])
  }

  // One act of some caller; an act that is not due does nothing.
  function ActOf(c: Callers, a: Act): Callers {
    match a
    case Reserve => Callers(Next(c.reporter, PrepareAccepted), c.calls + [Enqueuing])
    case Refuse(i) => if CallIs(c, i, Enqueuing) then Through(c, i) else c
    case Accept(i) => if CallIs(c, i, Enqueuing) then c.(calls := c.calls[i := Notifying]) else c
    case Notify(i) => if CallIs(c, i, Notifying) then Through(c, i) else c
    case Again(i) => if CallIs(c, i, Over) then c.(reporter := Next(c.reporter, Release(i))) else c
    case Other(step) =>
      if step.PrepareAccepted? || step.Release? then c else c.(reporter := Next(c.reporter, step))
  }

  function Acts(acts: seq<Act>): Callers {
    if acts == [] then Callers(INIT, []) else ActOf(Acts(acts[..|acts| - 1]), acts[|acts| - 1])
  }

  // A reservation is released exactly when its caller is through.
  predicate CallersOk(c: Callers) {
    && Inv(c.reporter) && |c.calls| == |c.reporter.released|
    && forall i :: 0 <= i < |c.calls| ==> (c.calls[i].Over? <==> c.reporter.released[i])
  }

  lemma ActKeepsOk(c: Callers, a: Act)
    requires CallersOk(c)
    ensures CallersOk(ActOf(c, a))
  {
    hide Inv, Outstanding;
    var step := match a
      case Reserve => PrepareAccepted
      case Refuse(i) => Release(i)
      case Notify(i) => Release(i)
      case Again(i) => Release(i)
      case Accept(i) => Release(i)
      case Other(step) => step;
    NextKeepsInv(c.reporter, step);
  }

  lemma {:induction false} ActsOk(acts: seq<Act>)
    ensures CallersOk(Acts(acts))
    decreases |acts|
  {
    hide CallersOk, ActOf;
    if acts == [] {
      NoActs();
    } else {
      ActsOk(acts[..|acts| - 1]);
      ActKeepsOk(Acts(acts[..|acts| - 1]), acts[|acts| - 1]);
    }
  }

  lemma NoActs()
    ensures CallersOk(Acts([]))
  {
  }

  // Over all interleavings of admissions, calls of Receive and reports: whatever
  // is pending belongs to a caller that is not through, and that caller can
  // release it at once. When all are through nothing is pending.
  lemma CallersRelease(acts: seq<Act>)
    ensures var c := Acts(acts);
            && |c.calls| == |c.reporter.released| && c.reporter.pending == Outstanding(c.reporter.released)
            && (forall i :: 0 <= i < |c.calls| ==> (c.calls[i].Over? <==> c.reporter.released[i]))
            && (forall i :: 0 <= i < |c.calls| && !c.calls[i].Over? ==>
                  CallIs(ActOf(c, if c.calls[i].Enqueuing? then Refuse(i) else Notify(i)), i, Over))
            && ((forall i :: 0 <= i < |c.calls| ==> c.calls[i].Over?) ==> c.reporter.pending == 0 && c.reporter.done == None)
  {
    hide Acts, Outstanding;
    ActsOk(acts);
    AllReleased(Acts(acts).reporter.released);
  }

  // ---------- the object ----------

  class ChannelReporter {
    const showAccepted: bool
    var acceptedPending: int
    var acceptedDone: Option<nat>
    var made: nat
    var closed: set<nat>
    var released: seq<bool> // the once-functions of all reservations
    ghost var reports: seq<Report>

    ghost function View(): State
      reads this
    {
      State(acceptedPending, acceptedDone, made, closed, released, reports)
    }

    constructor (showAccepted: bool)
      ensures View() == INIT && this.showAccepted == showAccepted
    {
      this.showAccepted := showAccepted;
      acceptedPending := 0;
      acceptedDone := None;
      made := 0;
      closed := {};
      released := [];
      reports := [];
    }

    // Without acceptance notices there is nothing to reserve.
    method Prepare() returns (task: Option<nat>)
      modifies this
      ensures task.Some? <==> showAccepted
      ensures View() == if showAccepted then Next(old(View()), PrepareAccepted) else old(View())
      ensures task.Some? ==> task.value == |old(released)|
    {
      if !showAccepted {
        return None;
      }
      if acceptedPending == 0 {
        acceptedDone := Some(made);
        made := made + 1;
      }
      acceptedPending := acceptedPending + 1;
      released := released + [false];
      return Some(|released| - 1);
    }

    method ReleaseOnce(task: nat)
      requires Inv(View()) && task < |released|
      modifies this
      ensures View() == Next(old(View()), Release(task))
      ensures Inv(View())
    {
      ReleaseKeepsInv(View(), task);
      if released[task] {
        return;
      }
      ReleaseCounts(released, task);
      released := released[task := true];
      acceptedPending := acceptedPending - 1;
      if acceptedPending == 0 {
        closed := closed + {acceptedDone.value};
        acceptedDone := None;
      }
    }

    // One round of the loop of `send`: send now, or wait for this channel.
    method SendRound(r: nat) returns (wait: Option<nat>)
      requires r < |reports| && reports[r].pc.Checking?
      modifies this`reports
      ensures View() == Next(old(View()), Check(r))
      ensures wait == acceptedDone
      ensures wait.None? <==> reports[r].pc.Sending?
    {
      wait := acceptedDone;
      reports := reports[r := reports[r].(pc := if wait.None? then Sending else Blocked(wait.value))];
    }
  }
}
