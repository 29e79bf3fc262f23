/** The gateway's conversation protocol as a transition system
    (internal/gateway/manager.go, lifecycle.go, gateway.go). A step is a body
    protected by a lock, a channel operation, or a worker's move between them.
    Admission holds its locks across several steps, so that workers, the
    gateway's cancellation and shutdown may interleave with it. */
module Gateway {
  import opened Basics

  const QUEUE_SIZE := 64

  datatype Msg = Msg(key: string, id: string)

  // Where a worker is. `evicted` tells an idle eviction from a cancellation.
  datatype WorkerPc =
    | Top                            // before the context check
    | Polling                        // about to read the idle snapshot
    | Waiting(expected: Option<nat>) // in the select, with or without a timer
    | Processing
    | Leaving(evicted: bool)         // the loop is over
    | Closing(evicted: bool)         // `closing` is set, Session.Close runs
    | Closed(evicted: bool)          // Session.Close has returned
    | Removed(evicted: bool)         // the map entry is gone
    | Done(evicted: bool)            // workers.Done

  // A conversation with its worker. `admitted` and `dequeued` record, in order,
  // what was ever put into and taken from the queue.
  datatype Conv = Conv(
    key: string,
    queue: seq<Msg>,
    activitySeq: nat,
    closing: bool,
    pc: WorkerPc,
    sessionOpen: bool,
    admitted: seq<Msg>,
    dequeued: seq<Msg>)

  // Progress of the one admission that holds the gateway's lock; from
  // `Enqueuing` on it also holds the manager's.
  datatype Admission =
    | Idle
    | Admitting(msg: Msg)
    | Enqueuing(msg: Msg)
    | Found(msg: Msg, conv: nat)
    | Sent(msg: Msg, conv: nat)

  datatype ShutdownPc = Canceling | Barred | AdaptersGone | Draining | Returned

  datatype State = State(
    canceled: bool,
    conversations: map<string, nat>,
    convs: seq<Conv>,
    workers: int,
    admission: Admission,
    starting: Option<nat>, // Run holds the gateway's lock, about to add this many adapters
    started: bool,
    adapters: nat,
    shutdowns: seq<ShutdownPc>)

  const INIT := State(false, map[], [], 0, Idle, None, false, 0, [])

  function NewConv(key: string): Conv {
    Conv(key, [], 0, false, Top, false, [], [])
  }

  // ---------- steps ----------

  datatype Step =
    | AdmitBegin(msg: Msg)
    | AdmitAbandon
    | EnqueueBegin(callerCanceled: bool)
    | Lookup
    | Send
    | Bump
    | CheckContext(conv: nat, hasTimer: bool)
    | PollIdle(conv: nat)
    | SelectCanceled(conv: nat)
    | Receive(conv: nat)
    | Tick(conv: nat)
    | OpenSession(conv: nat)
    | FinishMessage(conv: nat)
    | MarkClosing(conv: nat)
    | CloseSession(conv: nat)
    | FinishEviction(conv: nat)
    | WorkerDone(conv: nat)
    | Cancel
    | RunBegin(adapterCount: nat)
    | RunAdd
    | AdapterDone
    | ShutdownBegin
    | ShutdownGatewayBarrier(thread: nat)
    | ShutdownAdapters(thread: nat)
    | ShutdownManagerBarrier(thread: nat)
    | ShutdownReturn(thread: nat)

  predicate GatewayLockFree(s: State) {
    s.admission.Idle? && s.starting.None?
  }

  predicate ManagerLockFree(s: State) {
    s.admission.Idle? || s.admission.Admitting?
  }

  function SetConv(s: State, i: nat, c: Conv): State
    requires i < |s.convs|
  {
    s.(convs := s.convs[i := c])
  }

  predicate Mapped(s: State, i: nat)
    requires i < |s.convs|
  {
    s.convs[i].key in s.conversations && s.conversations[s.convs[i].key] == i
  }

  // admit: the context check under the gateway's lock.
  function AdmitBeginStep(s: State, msg: Msg): State {
    if GatewayLockFree(s) && !s.canceled then s.(admission := Admitting(msg)) else s
  }

  // admit: a duplicate, a command, an unaddressed group message.
  function AdmitAbandonStep(s: State): State {
    if s.admission.Admitting? then s.(admission := Idle) else s
  }

  // enqueue: both context checks under the manager's lock.
  function EnqueueBeginStep(s: State, callerCanceled: bool): State {
    if !s.admission.Admitting? then s
    else if s.canceled || callerCanceled then s.(admission := Idle)
    else s.(admission := Enqueuing(s.admission.msg))
  }

  // enqueue: find the conversation or start one with its worker; refuse a closing one.
  function LookupStep(s: State): State {
    if !s.admission.Enqueuing? then s
    else
      var msg := s.admission.msg;
      if msg.key !in s.conversations then
        s.(conversations := s.conversations[msg.key := |s.convs|], convs := s.convs + [NewConv(msg.key)],
           workers := s.workers + 1, admission := Found(msg, |s.convs|))
      else if s.conversations[msg.key] < |s.convs| && s.convs[s.conversations[msg.key]].closing then
        s.(admission := Idle)
      else s.(admission := Found(msg, s.conversations[msg.key]))
  }

  // enqueue: the non-blocking send.
  function SendStep(s: State): State {
    if !s.admission.Found? || s.admission.conv >= |s.convs| then s
    else
      var (msg, i) := (s.admission.msg, s.admission.conv);
      var c := s.convs[i];
      if |c.queue| >= QUEUE_SIZE then s.(admission := Idle)
      else SetConv(s, i, c.(queue := c.queue + [msg], admitted := c.admitted + [msg])).(admission := Sent(msg, i))
  }

  // enqueue: count the activity, release the locks.
  function BumpStep(s: State): State {
    if !s.admission.Sent? || s.admission.conv >= |s.convs| then s
    else
      var i := s.admission.conv;
      var c := s.convs[i];
      SetConv(s, i, c.(activitySeq := c.activitySeq + 1)).(admission := Idle)
  }

  // What the worker of a conversation does with it in one step, given the
  // cancellation, whether the map still leads here, and whether the manager's
  // lock is free for the bodies that take it.
  function Move(c: Conv, step: Step, canceled: bool, mapped: bool, lockFree: bool): Conv {
    match step
    case CheckContext(_, hasTimer) =>
      if c.pc != Top then c
      else if canceled then c.(pc := Leaving(false))
      else c.(pc := if hasTimer then Polling else Waiting(None))
    case PollIdle(_) => // idleSequence
      if c.pc != Polling || !lockFree then c
      else c.(pc := Waiting(if mapped && !c.closing && c.queue == [] then Some(c.activitySeq) else None))
    case SelectCanceled(_) =>
      if c.pc.Waiting? && canceled then c.(pc := Leaving(false)) else c
    case Receive(_) =>
      if c.pc.Waiting? && c.queue != [] then
        c.(queue := c.queue[1..], dequeued := c.dequeued + [c.queue[0]], pc := Processing)
      else c
    case Tick(_) => // beginEviction, when the timer fires
      if !c.pc.Waiting? || c.pc.expected.None? || !lockFree then c
      else if MayEvict(c, canceled, mapped, c.pc.expected.value) then c.(closing := true, pc := Leaving(true))
      else c.(pc := Top)
    case OpenSession(_) =>
      if c.pc.Processing? then c.(sessionOpen := true) else c
    case FinishMessage(_) =>
      if c.pc.Processing? then c.(pc := Top) else c
    case MarkClosing(_) => // closeRuntime, before Session.Close
      if c.pc.Leaving? && lockFree then c.(closing := true, pc := Closing(c.pc.evicted)) else c
    case CloseSession(_) =>
      if c.pc.Closing? then c.(sessionOpen := false, pc := Closed(c.pc.evicted)) else c
    case _ => c
  }

  predicate MayEvict(c: Conv, canceled: bool, mapped: bool, expected: nat) {
    !canceled && mapped && !c.closing && c.activitySeq == expected && c.queue == []
  }

  function WorkerStep(s: State, i: nat, step: Step): State {
    if i < |s.convs| then SetConv(s, i, Move(s.convs[i], step, s.canceled, Mapped(s, i), ManagerLockFree(s))) else s
  }

  function FinishEvictionStep(s: State, i: nat): State {
    if i < |s.convs| && s.convs[i].pc.Closed? && ManagerLockFree(s) then
      var t := SetConv(s, i, s.convs[i].(pc := Removed(s.convs[i].pc.evicted)));
      if Mapped(s, i) then t.(conversations := s.conversations - {s.convs[i].key}) else t
    else s
  }

  function WorkerDoneStep(s: State, i: nat): State {
    if i < |s.convs| && s.convs[i].pc.Removed? then
      SetConv(s, i, s.convs[i].(pc := Done(s.convs[i].pc.evicted))).(workers := s.workers - 1)
    else s
  }

  function RunBeginStep(s: State, count: nat): State {
    if GatewayLockFree(s) && !s.started && !s.canceled && count > 0 then s.(starting := Some(count)) else s
  }

  function RunAddStep(s: State): State {
    if s.starting.Some? then s.(starting := None, started := true, adapters := s.adapters + s.starting.value) else s
  }

  function AdapterDoneStep(s: State): State {
    if s.adapters > 0 then s.(adapters := s.adapters - 1) else s
  }

  predicate ShutdownAt(s: State, t: nat, pc: ShutdownPc) {
    t < |s.shutdowns| && s.shutdowns[t] == pc
  }

  function ShutdownStep(s: State, t: nat, from: ShutdownPc, may: bool, to: ShutdownPc): State {
    if ShutdownAt(s, t, from) && may then s.(shutdowns := s.shutdowns[t := to]) else s
  }

  // One step of the whole system; a step that is not enabled does nothing.
  function Next(s: State, step: Step): State {
    match step
    case AdmitBegin(msg) => AdmitBeginStep(s, msg)
    case AdmitAbandon => AdmitAbandonStep(s)
    case EnqueueBegin(callerCanceled) => EnqueueBeginStep(s, callerCanceled)
    case Lookup => LookupStep(s)
    case Send => SendStep(s)
    case Bump => BumpStep(s)
    case CheckContext(i, _) => WorkerStep(s, i, step)
    case PollIdle(i) => WorkerStep(s, i, step)
    case SelectCanceled(i) => WorkerStep(s, i, step)
    case Receive(i) => WorkerStep(s, i, step)
    case Tick(i) => WorkerStep(s, i, step)
    case OpenSession(i) => WorkerStep(s, i, step)
    case FinishMessage(i) => WorkerStep(s, i, step)
    case MarkClosing(i) => WorkerStep(s, i, step)
    case CloseSession(i) => WorkerStep(s, i, step)
    case FinishEviction(i) => FinishEvictionStep(s, i)
    case WorkerDone(i) => WorkerDoneStep(s, i)
    case Cancel => s.(canceled := true)
    case RunBegin(count) => RunBeginStep(s, count)
    case RunAdd => RunAddStep(s)
    case AdapterDone => AdapterDoneStep(s)
    case ShutdownBegin => s.(canceled := true, shutdowns := s.shutdowns + [Canceling])
    case ShutdownGatewayBarrier(t) => ShutdownStep(s, t, Canceling, GatewayLockFree(s), Barred)
    case ShutdownAdapters(t) => ShutdownStep(s, t, Barred, s.adapters == 0, AdaptersGone)
    case ShutdownManagerBarrier(t) => ShutdownStep(s, t, AdaptersGone, ManagerLockFree(s), Draining)
    case ShutdownReturn(t) => ShutdownStep(s, t, Draining, s.workers == 0, Returned)
  }

  // Any interleaving from the start.
  function Run(steps: seq<Step>): State {
    if steps == [] then INIT else Next(Run(steps[..|steps| - 1]), steps[|steps| - 1])
  }

  // ---------- the invariant ----------

  predicate PastLoop(pc: WorkerPc) {
    pc.Leaving? || pc.Closing? || pc.Closed? || pc.Removed? || pc.Done?
  }

  predicate Gone(pc: WorkerPc) {
    pc.Removed? || pc.Done?
  }

  // What holds of one conversation, given whether it is mapped, whether the
  // gateway is canceled, and whether a message was sent to it but not counted.
  predicate ConvOk(c: Conv, mapped: bool, canceled: bool, uncounted: bool) {
    && c.admitted == c.dequeued + c.queue
    && |c.admitted| == c.activitySeq + (if uncounted then 1 else 0)
    && |c.queue| <= QUEUE_SIZE
    && (PastLoop(c.pc) && !c.pc.evicted ==> canceled)
    && (PastLoop(c.pc) && c.pc.evicted ==> c.queue == [])
    && (c.closing <==> PastLoop(c.pc) && c.pc != Leaving(false))
    && (c.sessionOpen ==> !c.pc.Closed? && !Gone(c.pc))
    && (mapped <==> !Gone(c.pc))
    && (c.pc.Waiting? && c.pc.expected.Some? ==> c.pc.expected.value == |c.dequeued|)
    && (forall m :: m in c.admitted ==> m.key == c.key)
  }

  predicate Uncounted(s: State, i: nat) {
    s.admission.Sent? && s.admission.conv == i
  }

  predicate ConvsOk(s: State) {
    forall i :: 0 <= i < |s.convs| ==> ConvOk(s.convs[i], Mapped(s, i), s.canceled, Uncounted(s, i))
  }

  predicate MapOk(s: State) {
    forall k :: k in s.conversations ==> s.conversations[k] < |s.convs| && s.convs[s.conversations[k]].key == k
  }

  // While the manager's lock is held, the conversation found stays open to admission.
  predicate AdmissionOk(s: State) {
    s.admission.Found? || s.admission.Sent? ==>
      && s.admission.conv < |s.convs|
      && s.convs[s.admission.conv].key == s.admission.msg.key
      && !s.convs[s.admission.conv].closing
  }

  function Active(convs: seq<Conv>): nat {
    if convs == [] then 0 else (if convs[|convs| - 1].pc.Done? then 0 else 1) + Active(convs[..|convs| - 1])
  }

  predicate PastBarrier(pc: ShutdownPc) {
    pc != Canceling
  }

  predicate ShutdownOk(s: State, pc: ShutdownPc) {
    && s.canceled
    && (PastBarrier(pc) ==> GatewayLockFree(s))
    && (pc == AdaptersGone || pc == Draining || pc == Returned ==> s.adapters == 0)
    && (pc == Returned ==> s.workers == 0)
  }

  predicate ShutdownsOk(s: State) {
    forall t :: 0 <= t < |s.shutdowns| ==> ShutdownOk(s, s.shutdowns[t])
  }

  predicate LocksOk(s: State) {
    s.starting.Some? ==> s.admission.Idle? && !s.started
  }

  predicate Inv(s: State) {
    ConvsOk(s) && MapOk(s) && AdmissionOk(s) && s.workers == Active(s.convs) && ShutdownsOk(s) && LocksOk(s)
  }

  // ---------- preservation ----------

  lemma {:induction false} ActiveUpdate(convs: seq<Conv>, i: nat, c: Conv)
    requires i < |convs|
    ensures Active(convs[i := c])
            == Active(convs) - (if convs[i].pc.Done? then 0 else 1) + (if c.pc.Done? then 0 else 1)
  {
    var n := |convs| - 1;
    if i < n {
      assert convs[i := c][..n] == convs[..n][i := c];
      ActiveUpdate(convs[..n], i, c);
    } else {
      assert convs[i := c][..n] == convs[..n];
    }
  }

  // A step that changes one conversation, in nothing the others depend on.
  lemma UpdateKeepsInv(s: State, i: nat, c: Conv)
    requires Inv(s) && i < |s.convs|
    requires c.key == s.convs[i].key
    requires c.pc.Done? == s.convs[i].pc.Done?
    requires ConvOk(c, Mapped(s, i), s.canceled, Uncounted(s, i))
    requires c.closing && !s.convs[i].closing ==> ManagerLockFree(s)
    ensures Inv(SetConv(s, i, c))
  {
    hide ConvOk, ShutdownOk;
    ActiveUpdate(s.convs, i, c);
    var t := SetConv(s, i, c);
    forall j | 0 <= j < |t.convs|
      ensures ConvOk(t.convs[j], Mapped(t, j), t.canceled, Uncounted(t, j))
    {
      assert Mapped(t, j) == Mapped(s, j) && Uncounted(t, j) == Uncounted(s, j);
      assert j != i ==> t.convs[j] == s.convs[j];
    }
    forall k | 0 <= k < |t.shutdowns|
      ensures ShutdownOk(t, t.shutdowns[k])
    {
      SameShutdown(s, t, s.shutdowns[k]);
    }
  }

  lemma SameShutdown(s: State, t: State, pc: ShutdownPc)
    requires s.canceled ==> t.canceled
    requires GatewayLockFree(s) ==> GatewayLockFree(t)
    requires s.adapters == 0 ==> t.adapters == 0
    requires s.workers == 0 ==> t.workers == 0
    requires ShutdownOk(s, pc)
    ensures ShutdownOk(t, pc)
  {
  }

  lemma InvConv(s: State, i: nat)
    requires Inv(s) && i < |s.convs|
    ensures ConvOk(s.convs[i], Mapped(s, i), s.canceled, Uncounted(s, i))
  {
    hide ConvOk;
  }

  predicate IsWorkerStep(step: Step) {
    step.CheckContext? || step.PollIdle? || step.SelectCanceled? || step.Receive? || step.Tick?
    || step.OpenSession? || step.FinishMessage? || step.MarkClosing? || step.CloseSession?
  }

  // A worker's step keeps what must hold of its conversation, and closes it to
  // admission only while no admission is under way.
  lemma MoveKeepsOk(c: Conv, step: Step, canceled: bool, mapped: bool, lockFree: bool, uncounted: bool)
    requires ConvOk(c, mapped, canceled, uncounted)
    requires lockFree ==> !uncounted
    ensures var d := Move(c, step, canceled, mapped, lockFree);
            && ConvOk(d, mapped, canceled, uncounted)
            && d.key == c.key && d.pc.Done? == c.pc.Done?
            && (d.closing && !c.closing ==> lockFree)
            && d.admitted == c.admitted
  {
  }

  lemma WorkerStepsKeepInv(s: State, step: Step)
    requires Inv(s) && IsWorkerStep(step)
    ensures Inv(Next(s, step))
  {
    var i := step.conv;
    NextOfWorker(s, step);
    if i < |s.convs| {
      InvConv(s, i);
      hide Inv, ConvOk, Move, Next;
      MoveKeepsOk(s.convs[i], step, s.canceled, Mapped(s, i), ManagerLockFree(s), Uncounted(s, i));
      UpdateKeepsInv(s, i, Move(s.convs[i], step, s.canceled, Mapped(s, i), ManagerLockFree(s)));
    } else {
      hide Inv, Next;
    }
  }

  lemma NextOfWorker(s: State, step: Step)
    requires IsWorkerStep(step)
    ensures Next(s, step) == WorkerStep(s, step.conv, step)
  {
    hide WorkerStep;
  }

  // Steps that leave the conversations, the map and the counts alone.
  lemma FrameKeepsInv(s: State, t: State)
    requires Inv(s)
    requires t.convs == s.convs && t.conversations == s.conversations && t.workers == s.workers
    requires s.canceled ==> t.canceled
    requires !s.admission.Sent? && !t.admission.Sent?
    requires AdmissionOk(t) && LocksOk(t) && ShutdownsOk(t)
    ensures Inv(t)
  {
    hide ShutdownOk, Active;
    forall j | 0 <= j < |t.convs|
      ensures ConvOk(t.convs[j], Mapped(t, j), t.canceled, Uncounted(t, j))
    {
      assert Mapped(t, j) == Mapped(s, j);
    }
  }

  lemma SameShutdowns(s: State, t: State)
    requires ShutdownsOk(s) && t.shutdowns == s.shutdowns
    requires s.canceled ==> t.canceled
    requires GatewayLockFree(s) ==> GatewayLockFree(t)
    requires s.adapters == 0 ==> t.adapters == 0
    requires s.workers == 0 ==> t.workers == 0
    ensures ShutdownsOk(t)
  {
    hide ShutdownOk;
    forall k | 0 <= k < |t.shutdowns|
      ensures ShutdownOk(t, t.shutdowns[k])
    {
      SameShutdown(s, t, s.shutdowns[k]);
    }
  }

  // Once a shutdown has passed the gateway's lock, nobody holds it any more.
  lemma BarrierHolds(s: State, t: nat)
    requires Inv(s) && t < |s.shutdowns| && PastBarrier(s.shutdowns[t])
    ensures s.canceled && GatewayLockFree(s)
  {
    assert ShutdownOk(s, s.shutdowns[t]);
  }

  lemma LockTaken(s: State, t: State)
    requires ShutdownsOk(s) && t.shutdowns == s.shutdowns
    requires !s.canceled
    ensures s.shutdowns == [] && ShutdownsOk(t)
  {
    assert s.shutdowns != [] ==> ShutdownOk(s, s.shutdowns[0]);
  }

  lemma AdmissionStepsKeepInv(s: State, step: Step)
    requires Inv(s)
    requires step.AdmitBegin? || step.AdmitAbandon? || step.EnqueueBegin? || step.RunBegin?
    ensures Inv(Next(s, step))
  {
    var t := Next(s, step);
    if t != s {
      if s.canceled {
        SameShutdowns(s, t);
      } else {
        LockTaken(s, t);
      }
      hide ConvsOk, MapOk, ShutdownsOk;
      FrameKeepsInv(s, t);
    }
  }

  lemma LookupKeepsInv(s: State)
    requires Inv(s)
    ensures Inv(Next(s, Lookup))
  {
    var t := Next(s, Lookup);
    if s.admission.Enqueuing? {
      var key := s.admission.msg.key;
      if key !in s.conversations {
        SpawnKeepsInv(s);
      } else {
        LookupFinds(s);
        hide ConvsOk, ShutdownsOk, Active, Next;
        SameShutdowns(s, t);
        FrameKeepsInv(s, t);
      }
    }
  }

  lemma LookupFinds(s: State)
    requires MapOk(s) && s.admission.Enqueuing? && s.admission.msg.key in s.conversations
    ensures var t := Next(s, Lookup);
            t == s.(admission := t.admission) && !t.admission.Sent? && !t.admission.Admitting? && AdmissionOk(t)
  {
  }

  // A new conversation is spawned only when no shutdown has passed the barrier.
  lemma SpawnKeepsInv(s: State)
    requires Inv(s) && s.admission.Enqueuing? && s.admission.msg.key !in s.conversations
    ensures Inv(Next(s, Lookup))
  {
    hide ConvOk;
    var t := Next(s, Lookup);
    var n := |s.convs|;
    assert t.convs[..n] == s.convs;
    forall j | 0 <= j < |t.convs|
      ensures ConvOk(t.convs[j], Mapped(t, j), t.canceled, Uncounted(t, j))
    {
      if j == n {
        NewConvOk(s.admission.msg.key, t.canceled);
      } else {
        InvConv(s, j);
        SpawnKeepsMapped(s, j);
      }
    }
    forall k | 0 <= k < |t.shutdowns|
      ensures ShutdownOk(t, t.shutdowns[k])
    {
      assert ShutdownOk(s, s.shutdowns[k]);
    }
  }

  lemma NewConvOk(key: string, canceled: bool)
    ensures ConvOk(NewConv(key), true, canceled, false)
  {
  }

  // Whoever has the new key was already gone.
  lemma SpawnKeepsMapped(s: State, j: nat)
    requires Inv(s) && s.admission.Enqueuing? && s.admission.msg.key !in s.conversations && j < |s.convs|
    ensures Mapped(Next(s, Lookup), j) == Mapped(s, j)
  {
    hide ConvOk, ShutdownOk;
  }

  lemma SendOk(c: Conv, msg: Msg, mapped: bool, canceled: bool)
    requires ConvOk(c, mapped, canceled, false)
    requires !c.closing && |c.queue| < QUEUE_SIZE && msg.key == c.key
    ensures ConvOk(c.(queue := c.queue + [msg], admitted := c.admitted + [msg]), mapped, canceled, true)
  {
  }

  lemma BumpOk(c: Conv, mapped: bool, canceled: bool)
    requires ConvOk(c, mapped, canceled, true)
    ensures ConvOk(c.(activitySeq := c.activitySeq + 1), mapped, canceled, false)
  {
  }

  lemma SendKeepsInv(s: State)
    requires Inv(s)
    ensures Inv(Next(s, Send))
  {
    var t := Next(s, Send);
    if s.admission.Found? {
      var i := s.admission.conv;
      InvConv(s, i);
      if |s.convs[i].queue| < QUEUE_SIZE {
        SendOk(s.convs[i], s.admission.msg, Mapped(s, i), s.canceled);
        AdmissionUpdate(s, t, i);
      } else {
        SameShutdowns(s, t);
        hide ConvsOk, ShutdownsOk;
        FrameKeepsInv(s, t);
      }
    }
  }

  lemma BumpKeepsInv(s: State)
    requires Inv(s)
    ensures Inv(Next(s, Bump))
  {
    if s.admission.Sent? {
      var i := s.admission.conv;
      InvConv(s, i);
      BumpOk(s.convs[i], Mapped(s, i), s.canceled);
      AdmissionUpdate(s, Next(s, Bump), i);
    }
  }

  lemma AdmissionUpdate(s: State, t: State, i: nat)
    requires Inv(s) && (s.admission.Found? || s.admission.Sent?) && s.admission.conv == i
    requires i < |s.convs| == |t.convs|
    requires t == SetConv(s, i, t.convs[i]).(admission := t.admission)
    requires t.convs[i].key == s.convs[i].key && t.convs[i].pc == s.convs[i].pc && !t.convs[i].closing
    requires t.admission == Idle || t.admission == Sent(s.admission.msg, i)
    requires ConvOk(t.convs[i], Mapped(s, i), s.canceled, Uncounted(t, i))
    ensures Inv(t)
  {
    hide ConvOk;
    ActiveUpdate(s.convs, i, t.convs[i]);
    forall j | 0 <= j < |t.convs|
      ensures ConvOk(t.convs[j], Mapped(t, j), t.canceled, Uncounted(t, j))
    {
      assert Mapped(t, j) == Mapped(s, j);
      assert j != i ==> t.convs[j] == s.convs[j] && Uncounted(t, j) == Uncounted(s, j);
    }
    SameShutdowns(s, t);
  }

  lemma RemovalOk(c: Conv, mapped: bool, canceled: bool, uncounted: bool)
    requires ConvOk(c, mapped, canceled, uncounted) && c.pc.Closed?
    ensures mapped
    ensures ConvOk(c.(pc := Removed(c.pc.evicted)), false, canceled, uncounted)
  {
  }

  // The last two moves of a worker: leaving the map, leaving the wait group.
  lemma DepartureKeepsInv(s: State, t: State, i: nat, c: Conv)
    requires Inv(s) && i < |s.convs|
    requires c.key == s.convs[i].key && c.closing == s.convs[i].closing
    requires t == SetConv(s, i, c).(conversations := t.conversations, workers := t.workers)
    requires t.workers == s.workers - (if s.convs[i].pc.Done? then 0 else 1) + (if c.pc.Done? then 0 else 1)
    requires t.workers == s.workers || s.workers > 0
    requires t.conversations == s.conversations
             || (Mapped(s, i) && t.conversations == s.conversations - {s.convs[i].key})
    requires ConvOk(c, Mapped(t, i), s.canceled, Uncounted(s, i))
    ensures Inv(t)
  {
    hide ConvOk, ShutdownsOk, ConvsOk, MapOk, Mapped;
    ActiveUpdate(s.convs, i, c);
    DepartureKeepsConvs(s, t, i, c);
    DepartureKeepsMap(s, t, i, c);
    SameShutdowns(s, t);
  }

  lemma DepartureKeepsConvs(s: State, t: State, i: nat, c: Conv)
    requires ConvsOk(s) && i < |s.convs| && c.key == s.convs[i].key
    requires t == SetConv(s, i, c).(conversations := t.conversations, workers := t.workers)
    requires t.conversations == s.conversations
             || (Mapped(s, i) && t.conversations == s.conversations - {s.convs[i].key})
    requires ConvOk(c, Mapped(t, i), s.canceled, Uncounted(s, i))
    ensures ConvsOk(t)
  {
    hide ConvOk;
    forall j | 0 <= j < |t.convs|
      ensures ConvOk(t.convs[j], Mapped(t, j), t.canceled, Uncounted(t, j))
    {
      assert j != i ==> t.convs[j] == s.convs[j] && Mapped(t, j) == Mapped(s, j);
      assert Uncounted(t, j) == Uncounted(s, j);
    }
  }

  lemma DepartureKeepsMap(s: State, t: State, i: nat, c: Conv)
    requires MapOk(s) && i < |s.convs| && c.key == s.convs[i].key
    requires t == SetConv(s, i, c).(conversations := t.conversations, workers := t.workers)
    requires t.conversations == s.conversations || t.conversations == s.conversations - {s.convs[i].key}
    ensures MapOk(t)
  {
  }

  lemma FinishEvictionKeepsInv(s: State, i: nat)
    requires Inv(s)
    ensures Inv(Next(s, FinishEviction(i)))
  {
    var t := Next(s, FinishEviction(i));
    if t != s {
      InvConv(s, i);
      hide Inv, ConvOk;
      RemovalOk(s.convs[i], Mapped(s, i), s.canceled, Uncounted(s, i));
      DepartureKeepsInv(s, t, i, t.convs[i]);
    }
  }

  lemma DoneOk(c: Conv, mapped: bool, canceled: bool, uncounted: bool)
    requires ConvOk(c, mapped, canceled, uncounted) && c.pc.Removed?
    ensures ConvOk(c.(pc := Done(c.pc.evicted)), mapped, canceled, uncounted)
  {
  }

  lemma WorkerDoneKeepsInv(s: State, i: nat)
    requires Inv(s)
    ensures Inv(Next(s, WorkerDone(i)))
  {
    var t := Next(s, WorkerDone(i));
    if t != s {
      InvConv(s, i);
      SomeActive(s, i);
      hide Inv, ConvOk;
      DoneOk(s.convs[i], Mapped(s, i), s.canceled, Uncounted(s, i));
      DepartureKeepsInv(s, t, i, t.convs[i]);
    }
  }

  lemma SomeActive(s: State, i: nat)
    requires Inv(s) && i < |s.convs| && !s.convs[i].pc.Done?
    ensures s.workers > 0
  {
    hide ConvOk;
    ActiveUpdate(s.convs, i, s.convs[i].(pc := Done(false)));
  }

  lemma CanceledOk(c: Conv, mapped: bool, canceled: bool, uncounted: bool)
    requires ConvOk(c, mapped, canceled, uncounted)
    ensures ConvOk(c, mapped, true, uncounted)
  {
  }

  lemma CancelKeepsInv(s: State)
    requires Inv(s)
    ensures Inv(s.(canceled := true))
  {
    hide ConvOk;
    var t := s.(canceled := true);
    forall j | 0 <= j < |t.convs|
      ensures ConvOk(t.convs[j], Mapped(t, j), t.canceled, Uncounted(t, j))
    {
      InvConv(s, j);
      CanceledOk(s.convs[j], Mapped(s, j), s.canceled, Uncounted(s, j));
    }
    SameShutdowns(s, t);
  }

  lemma ControlStepsKeepInv(s: State, step: Step)
    requires Inv(s)
    requires step.RunAdd? || step.AdapterDone? || step.ShutdownBegin? || step.ShutdownGatewayBarrier?
             || step.ShutdownAdapters? || step.ShutdownManagerBarrier? || step.ShutdownReturn?
    ensures Inv(Next(s, step))
  {
    hide ConvsOk, MapOk, AdmissionOk, Next, Active;
    if step.ShutdownBegin? {
      CancelKeepsInv(s);
    }
    var c := if step.ShutdownBegin? then s.(canceled := true) else s;
    var t := Next(s, step);
    ControlFacts(s, step);
    ControlShutdowns(c, t, step);
    ControlFrame(c, t);
  }

  lemma ControlFacts(s: State, step: Step)
    requires step.RunAdd? || step.AdapterDone? || step.ShutdownBegin? || step.ShutdownGatewayBarrier?
             || step.ShutdownAdapters? || step.ShutdownManagerBarrier? || step.ShutdownReturn?
    ensures var t := Next(s, step);
            && t.convs == s.convs && t.conversations == s.conversations && t.workers == s.workers
            && t.canceled == (s.canceled || step.ShutdownBegin?) && t.admission == s.admission
            && (t.starting.Some? ==> s.starting.Some? && t.started == s.started)
            && (step.ShutdownBegin? ==> Next(s.(canceled := true), step) == t)
  {
  }

  lemma ControlFrame(s: State, t: State)
    requires Inv(s)
    requires t.convs == s.convs && t.conversations == s.conversations && t.workers == s.workers
    requires t.canceled == s.canceled && t.admission == s.admission
    requires t.starting.Some? ==> s.starting.Some? && t.started == s.started
    requires ShutdownsOk(t)
    ensures Inv(t)
  {
    hide ConvOk, ShutdownsOk;
    assert forall j :: 0 <= j < |t.convs| ==> Mapped(t, j) == Mapped(s, j) && Uncounted(t, j) == Uncounted(s, j);
  }

  lemma ControlShutdowns(s: State, t: State, step: Step)
    requires ShutdownsOk(s)
    requires step.RunAdd? || step.AdapterDone? || step.ShutdownBegin? || step.ShutdownGatewayBarrier?
             || step.ShutdownAdapters? || step.ShutdownManagerBarrier? || step.ShutdownReturn?
    requires t == Next(s, step)
    requires step.ShutdownBegin? ==> s.canceled
    ensures ShutdownsOk(t)
  {
    forall k | 0 <= k < |t.shutdowns|
      ensures ShutdownOk(t, t.shutdowns[k])
    {
      if k < |s.shutdowns| {
        assert ShutdownOk(s, s.shutdowns[k]);
      }
    }
  }

  lemma NextKeepsInv(s: State, step: Step)
    requires Inv(s)
    ensures Inv(Next(s, step))
  {
    if IsWorkerStep(step) {
      WorkerStepsKeepInv(s, step);
    } else {
      match step
      case Lookup => LookupKeepsInv(s);
      case Send => SendKeepsInv(s);
      case Bump => BumpKeepsInv(s);
      case FinishEviction(i) => FinishEvictionKeepsInv(s, i);
      case WorkerDone(i) => WorkerDoneKeepsInv(s, i);
      case Cancel => CancelKeepsInv(s);
      case AdmitBegin(_) => AdmissionStepsKeepInv(s, step);
      case AdmitAbandon => AdmissionStepsKeepInv(s, step);
      case EnqueueBegin(_) => AdmissionStepsKeepInv(s, step);
      case RunBegin(_) => AdmissionStepsKeepInv(s, step);
      case _ => ControlStepsKeepInv(s, step);
    }
  }

  lemma {:induction false} RunKeepsInv(steps: seq<Step>)
    ensures Inv(Run(steps))
    decreases |steps|
  {
    hide Next;
    if steps != [] {
      RunKeepsInv(steps[..|steps| - 1]);
      NextKeepsInv(Run(steps[..|steps| - 1]), steps[|steps| - 1]);
    }
  }

  // ---------- what every interleaving keeps ----------

  predicate ReachedBy(steps: seq<Step>, s: State) {
    s == Run(steps)
  }

  // A state that some interleaving from the start leads to.
  ghost predicate Reachable(s: State) {
    exists steps :: ReachedBy(steps, s)
  }

  lemma ReachableInv(s: State)
    requires Reachable(s)
    ensures Inv(s)
  {
    hide Run, Inv;
    var steps :| ReachedBy(steps, s);
    RunKeepsInv(steps);
  }

  // Messages leave a queue in the order they were admitted, none is lost or
  // doubled, and the activity count is their number whenever the lock is free.
  lemma NoMessageLost(s: State, i: nat)
    requires Reachable(s)
    requires i < |s.convs|
    ensures var c := s.convs[i];
            && c.admitted == c.dequeued + c.queue
            && |c.queue| <= 64
            && (ManagerLockFree(s) ==> c.activitySeq == |c.dequeued| + |c.queue|)
            && (forall m :: m in c.admitted ==> m.key == c.key)
            // An idle eviction, and without cancellation any exit, leaves nothing behind.
            && (PastLoop(c.pc) && (c.pc.evicted || !s.canceled) ==> c.queue == [] && c.dequeued == c.admitted)
  {
    ReachableInv(s);
    InvConv(s, i);
    var c := s.convs[i];
    assert c.queue == [] ==> c.dequeued + c.queue == c.dequeued;
  }

  // `d` is a later state of conversation `c`; only the message an admission is
  // sending can have been admitted, and to a conversation that is not closing.
  predicate Grown(c: Conv, d: Conv, admission: Admission) {
    && d.key == c.key
    && c.admitted <= d.admitted
    && c.dequeued <= d.dequeued
    && (c.closing ==> d.closing && d.admitted == c.admitted)
    && (d.admitted != c.admitted ==> admission.Found? && d.admitted == c.admitted + [admission.msg])
  }

  lemma MoveGrows(c: Conv, step: Step, canceled: bool, mapped: bool, lockFree: bool, admission: Admission)
    ensures Grown(c, Move(c, step, canceled, mapped, lockFree), admission)
  {
  }

  lemma OtherStepsGrow(s: State, step: Step, i: nat)
    requires AdmissionOk(s) && i < |s.convs| && !IsWorkerStep(step)
    ensures i < |Next(s, step).convs| && Grown(s.convs[i], Next(s, step).convs[i], s.admission)
  {
    if step.FinishEviction? || step.WorkerDone? {
      DepartureGrows(s, step, i);
    } else if !step.Lookup? && !step.Send? && !step.Bump? {
      SameConvs(s, step);
      hide Next;
    }
  }

  lemma DepartureGrows(s: State, step: Step, i: nat)
    requires i < |s.convs| && (step.FinishEviction? || step.WorkerDone?)
    ensures i < |Next(s, step).convs| && Grown(s.convs[i], Next(s, step).convs[i], s.admission)
  {
    hide Move, Next;
    NextOfDeparture(s, step);
    var j := step.conv;
    if j < |s.convs| {
      var pc := s.convs[j].pc;
      assert Next(s, step).convs == s.convs
             || (pc.Closed? && Next(s, step).convs == s.convs[j := s.convs[j].(pc := Removed(pc.evicted))])
             || (pc.Removed? && Next(s, step).convs == s.convs[j := s.convs[j].(pc := Done(pc.evicted))]);
    }
  }

  lemma NextOfDeparture(s: State, step: Step)
    requires step.FinishEviction? || step.WorkerDone?
    ensures Next(s, step) == if step.FinishEviction? then FinishEvictionStep(s, step.conv) else WorkerDoneStep(s, step.conv)
  {
    hide FinishEvictionStep, WorkerDoneStep;
  }

  predicate MovesConvs(step: Step) {
    IsWorkerStep(step) || step.Lookup? || step.Send? || step.Bump? || step.FinishEviction? || step.WorkerDone?
  }

  lemma SameConvs(s: State, step: Step)
    requires !MovesConvs(step)
    ensures Next(s, step).convs == s.convs && Next(s, step).workers == s.workers
  {
  }

  // Only a lookup that finds no conversation makes the conversations more.
  lemma SpawnedBy(s: State, step: Step)
    ensures |Next(s, step).convs| == |s.convs| || Spawns(s, step)
    ensures Spawns(s, step) ==> Next(s, step).convs == s.convs + [NewConv(s.admission.msg.key)]
  {
    if IsWorkerStep(step) {
      NextOfWorker(s, step);
      hide Next, Move;
    } else if !MovesConvs(step) {
      SameConvs(s, step);
      hide Next;
    }
  }

  predicate Spawns(s: State, step: Step) {
    step.Lookup? && s.admission.Enqueuing? && s.admission.msg.key !in s.conversations
  }

  // A later state of a conversation only extends its record, and admits
  // nothing more once it is closing.
  lemma RecordsGrow(s: State, step: Step, i: nat)
    requires Reachable(s)
    requires i < |s.convs|
    ensures i < |Next(s, step).convs|
    ensures Grown(s.convs[i], Next(s, step).convs[i], s.admission)
  {
    hide Next, Move, Inv, Reachable, Grown;
    ReachableInv(s);
    AdmissionPart(s);
    if IsWorkerStep(step) {
      NextOfWorker(s, step);
      var j := step.conv;
      if j < |s.convs| {
        MoveGrows(s.convs[j], step, s.canceled, Mapped(s, j), ManagerLockFree(s), s.admission);
      }
      SameGrows(s.convs[i], s.admission);
    } else {
      OtherStepsGrow(s, step, i);
    }
  }

  lemma SameGrows(c: Conv, admission: Admission)
    ensures Grown(c, c, admission)
  {
  }

  lemma NextIsReachable(s: State, step: Step)
    requires Reachable(s)
    ensures Reachable(Next(s, step))
  {
    hide Next;
    var steps :| ReachedBy(steps, s);
    var longer := steps + [step];
    assert longer[..|steps|] == steps;
    assert ReachedBy(longer, Next(s, step));
  }

  // Any continuation of a run.
  function After(s: State, steps: seq<Step>): State {
    if steps == [] then s else Next(After(s, steps[..|steps| - 1]), steps[|steps| - 1])
  }

  // `d` is `c` at any later time.
  predicate Extends(c: Conv, d: Conv) {
    && d.key == c.key && c.admitted <= d.admitted && c.dequeued <= d.dequeued
    && (c.closing ==> d.closing && d.admitted == c.admitted)
  }

  // However a run goes on, what a conversation has admitted and processed stays
  // in its record, in order, and once it is closing nothing is ever added.
  lemma {:induction false} RecordsArePermanent(s: State, steps: seq<Step>, i: nat)
    requires Reachable(s) && i < |s.convs|
    ensures var t := After(s, steps);
            Reachable(t) && i < |t.convs| && Extends(s.convs[i], t.convs[i])
    decreases |steps|
  {
    hide Next, Reachable;
    if steps != [] {
      var n := |steps| - 1;
      RecordsArePermanent(s, steps[..n], i);
      var t := After(s, steps[..n]);
      RecordsGrow(t, steps[n], i);
      NextIsReachable(t, steps[n]);
    }
  }

  lemma AdmissionPart(s: State)
    requires Inv(s)
    ensures AdmissionOk(s)
  {
  }

  // Per session key, at most one conversation is not yet gone; it is the
  // mapped one, and only it can hold an open session.
  lemma OneConversationPerKey(s: State, i: nat, j: nat)
    requires Reachable(s)
    requires i < |s.convs| && j < |s.convs|
    requires s.convs[i].key == s.convs[j].key
    ensures && (!Gone(s.convs[i].pc) && !Gone(s.convs[j].pc) ==> i == j)
            && (s.convs[i].sessionOpen && s.convs[j].sessionOpen ==> i == j)
            && (s.convs[i].sessionOpen ==> Mapped(s, i))
  {
    ReachableInv(s);
    InvConv(s, i);
    InvConv(s, j);
  }

  // A key leaves the map only in the worker's last locked body, after
  // Session.Close has returned.
  lemma KeyLeavesAfterClose(s: State, step: Step, key: string)
    requires Reachable(s)
    requires key in s.conversations
    requires key !in Next(s, step).conversations
    ensures && step.FinishEviction?
            && step.conv == s.conversations[key]
            && step.conv < |s.convs| && s.convs[step.conv].pc.Closed? && !s.convs[step.conv].sessionOpen
  {
    ReachableInv(s);
    RemovedBy(s, step, key);
    InvConv(s, step.conv);
  }

  lemma RemovedBy(s: State, step: Step, key: string)
    requires key in s.conversations && key !in Next(s, step).conversations
    ensures step.FinishEviction? && step.conv < |s.convs| && s.convs[step.conv].pc.Closed?
    ensures Mapped(s, step.conv) && s.convs[step.conv].key == key
  {
    if IsWorkerStep(step) {
      NextOfWorker(s, step);
      hide Next, Move;
    }
  }

  // A successor is spawned only when every earlier conversation of its key has
  // closed its session and gone.
  lemma SuccessorComesAfter(s: State, step: Step, j: nat)
    requires Reachable(s)
    requires |Next(s, step).convs| > |s.convs|
    requires j < |s.convs|
    requires s.convs[j].key == Next(s, step).convs[|s.convs|].key
    ensures Gone(s.convs[j].pc) && !s.convs[j].sessionOpen
  {
    ReachableInv(s);
    InvConv(s, j);
    SpawnedBy(s, step);
    hide Next, Inv;
  }

  lemma {:induction false} NoneActive(convs: seq<Conv>)
    requires Active(convs) == 0
    ensures forall i :: 0 <= i < |convs| ==> convs[i].pc.Done?
  {
    if convs != [] {
      NoneActive(convs[..|convs| - 1]);
    }
  }

  // When a Shutdown has returned, every worker ever spawned is done, every
  // session is closed, and the map is empty.
  lemma ShutdownDrains(s: State, t: nat)
    requires Reachable(s)
    requires t < |s.shutdowns| && s.shutdowns[t] == Returned
    ensures && s.adapters == 0
            && s.conversations == map[]
            && forall i :: 0 <= i < |s.convs| ==> s.convs[i].pc.Done? && !s.convs[i].sessionOpen
  {
    ReachableInv(s);
    assert ShutdownOk(s, s.shutdowns[t]);
    NoneActive(s.convs);
    forall i | 0 <= i < |s.convs|
      ensures s.convs[i].pc.Done? && !s.convs[i].sessionOpen && !Mapped(s, i)
    {
      InvConv(s, i);
    }
    assert forall k :: k !in s.conversations;
  }

  // Once any Shutdown is past the gateway's lock, no adapter and no worker is
  // added, so neither wait group grows while it is waited for.
  lemma NothingAddedAfterBarrier(s: State, t: nat, step: Step)
    requires Reachable(s)
    requires t < |s.shutdowns| && PastBarrier(s.shutdowns[t])
    ensures var u := Next(s, step);
            |u.convs| == |s.convs| && u.adapters <= s.adapters && u.workers <= s.workers && !u.starting.Some?
  {
    hide Next, Move, Inv, Reachable, ShutdownOk;
    ReachableInv(s);
    BarrierHolds(s, t);
    SpawnedBy(s, step);
    if IsWorkerStep(step) {
      NextOfWorker(s, step);
    } else {
      BarredCounts(s, step);
    }
  }

  // The adapters are started once: after that their number only falls.
  lemma AdaptersStartOnce(s: State, step: Step)
    requires Reachable(s) && s.started
    ensures var u := Next(s, step);
            u.started && u.starting.None? && u.adapters <= s.adapters
  {
    ReachableInv(s);
    assert LocksOk(s);
    hide Reachable, Inv, Next, Move;
    if IsWorkerStep(step) {
      NextOfWorker(s, step);
    } else {
      AdaptersKept(s, step);
    }
  }

  lemma AdaptersKept(s: State, step: Step)
    requires s.started && s.starting.None? && !IsWorkerStep(step)
    ensures var u := Next(s, step); u.started && u.starting.None? && u.adapters <= s.adapters
  {
    hide Move, Mapped, ManagerLockFree;
  }

  // With the gateway canceled and its lock free, nothing is being added.
  lemma BarredCounts(s: State, step: Step)
    requires s.canceled && GatewayLockFree(s) && !IsWorkerStep(step)
    ensures var u := Next(s, step);
            u.adapters <= s.adapters && u.workers <= s.workers && !u.starting.Some? && !Spawns(s, step)
  {
  }
}
