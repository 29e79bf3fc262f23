/** The conversation manager as the object it is (internal/gateway/manager.go,
    lifecycle.go): fields updated under a lock. Each method is one atomic body
    and takes exactly the step of the transition system named in its contract;
    `Enqueue` is the whole admission when nothing interleaves. */
module Manager {
  import opened Basics
  import G = Gateway

  datatype EnqueueResult = Accepted | QueueFull | ConversationClosing | Canceled

  // The conversation a message goes to: the mapped one, or a new one.
  function Target(s: G.State, msg: G.Msg): G.Conv {
    if msg.key in s.conversations && s.conversations[msg.key] < |s.convs| then s.convs[s.conversations[msg.key]]
    else G.NewConv(msg.key)
  }

  predicate HasRoom(c: G.Conv) {
    !c.closing && |c.queue| < 64
  }

  // The message is now the last of its conversation, and counted.
  predicate AcceptedInto(s: G.State, t: G.State, msg: G.Msg) {
    && msg.key in t.conversations && t.conversations[msg.key] < |t.convs|
    && var c := Target(s, msg);
       t.convs[t.conversations[msg.key]]
       == c.(queue := c.queue + [msg], admitted := c.admitted + [msg], activitySeq := c.activitySeq + 1)
  }

  class ConversationManager {
    var canceled: bool
    var conversations: map<string, nat>
    var convs: seq<G.Conv>
    var workers: int
    var admission: G.Admission

    // The rest of the gateway, which only `Interfere` touches.
    var starting: Option<nat>
    var started: bool
    var adapters: nat
    var shutdowns: seq<G.ShutdownPc>

    function View(): G.State
      reads this
    {
      G.State(canceled, conversations, convs, workers, admission, starting, started, adapters, shutdowns)
    }

    constructor ()
      ensures View() == G.INIT
    {
      canceled := false;
      conversations := map[];
      convs := [];
      workers := 0;
      admission := G.Idle;
      starting := None;
      started := false;
      adapters := 0;
      shutdowns := [];
    }

    // A step of another thread.
    method Interfere(step: G.Step)
      modifies this
      ensures View() == G.Next(old(View()), step)
    {
      hide G.Next;
      var s := G.Next(View(), step);
      canceled, conversations, convs, workers, admission :=
        s.canceled, s.conversations, s.convs, s.workers, s.admission;
      starting, started, adapters, shutdowns := s.starting, s.started, s.adapters, s.shutdowns;
    }

    method EnqueueBegin(callerCanceled: bool) returns (ok: bool)
      requires admission.Admitting?
      modifies this
      ensures View() == G.Next(old(View()), G.EnqueueBegin(callerCanceled))
      ensures ok <==> admission.Enqueuing?
    {
      if canceled || callerCanceled {
        admission := G.Idle;
        return false;
      }
      admission := G.Enqueuing(admission.msg);
      return true;
    }

    method Lookup() returns (ok: bool)
      requires admission.Enqueuing?
      requires forall k :: k in conversations ==> conversations[k] < |convs|
      modifies this
      ensures View() == G.Next(old(View()), G.Lookup)
      ensures ok <==> admission.Found?
    {
      var msg := admission.msg;
      var i: nat;
      if msg.key in conversations {
        i := conversations[msg.key];
      } else {
        i := |convs|;
        convs := convs + [G.NewConv(msg.key)];
        conversations := conversations[msg.key := i];
        workers := workers + 1;
      }
      if convs[i].closing {
        admission := G.Idle;
        return false;
      }
      admission := G.Found(msg, i);
      return true;
    }

    method Send() returns (ok: bool)
      requires admission.Found? && admission.conv < |convs|
      modifies this
      ensures View() == G.Next(old(View()), G.Send)
      ensures ok <==> admission.Sent?
    {
      var msg, i := admission.msg, admission.conv;
      var c := convs[i];
      if |c.queue| >= G.QUEUE_SIZE {
        admission := G.Idle;
        return false;
      }
      convs := convs[i := c.(queue := c.queue + [msg], admitted := c.admitted + [msg])];
      admission := G.Sent(msg, i);
      return true;
    }

    method Bump()
      requires admission.Sent? && admission.conv < |convs|
      modifies this
      ensures View() == G.Next(old(View()), G.Bump)
    {
      var i := admission.conv;
      convs := convs[i := convs[i].(activitySeq := convs[i].activitySeq + 1)];
      admission := G.Idle;
    }

    // A message is accepted exactly when its conversation is new, or open with
    // room in its queue; then it is the last in the queue. A refusal changes
    // no conversation.
    method Enqueue(callerCanceled: bool) returns (r: EnqueueResult)
      requires G.Inv(View()) && admission.Admitting?
      modifies this
      ensures G.Inv(View()) && admission == G.Idle
      ensures r == Canceled <==> canceled || callerCanceled
      ensures var s, msg := old(View()), old(admission.msg);
              && (r == Accepted <==> !canceled && !callerCanceled && HasRoom(Target(s, msg)))
              && (r == ConversationClosing ==> Target(s, msg).closing)
              && (r == QueueFull ==> !Target(s, msg).closing && |Target(s, msg).queue| >= 64)
              && (r == Accepted ==> AcceptedInto(s, View(), msg))
      ensures r != Accepted ==> convs == old(convs) && conversations == old(conversations) && workers == old(workers)
    {
      hide G.Inv, G.Next, Target, AcceptedInto;
      ghost var s0, msg := View(), admission.msg;
      BeginOutcome(s0, callerCanceled);
      G.NextKeepsInv(s0, G.EnqueueBegin(callerCanceled));
      var ok := EnqueueBegin(callerCanceled);
      if !ok {
        return Canceled;
      }
      ghost var s1 := View();
      LookupOutcome(s1, msg);
      SameTarget(s0, s1, msg);
      G.NextKeepsInv(s1, G.Lookup);
      ok := Lookup();
      if !ok {
        return ConversationClosing;
      }
      ghost var s2 := View();
      SendOutcome(s2, Target(s0, msg), msg);
      G.NextKeepsInv(s2, G.Send);
      ok := Send();
      if !ok {
        return QueueFull;
      }
      ghost var s3 := View();
      BumpOutcome(s0, s3, Target(s0, msg), msg);
      G.NextKeepsInv(s3, G.Bump);
      Bump();
      return Accepted;
    }

    // The top of the worker's loop.
    method CheckContext(i: nat, hasTimer: bool) returns (stop: bool)
      requires i < |convs| && convs[i].pc.Top?
      modifies this`convs
      ensures View() == G.Next(old(View()), G.CheckContext(i, hasTimer))
      ensures stop == canceled
      ensures |convs| == |old(convs)| && convs[i].pc == (if stop then G.Leaving(false) else if hasTimer then G.Polling else G.Waiting(None))
    {
      stop := canceled;
      convs := convs[i := convs[i].(pc := if stop then G.Leaving(false) else if hasTimer then G.Polling else G.Waiting(None))];
    }

    // The idle snapshot the worker takes before it waits.
    method PollIdle(i: nat) returns (expected: Option<nat>)
      requires i < |convs| && convs[i].pc.Polling? && G.ManagerLockFree(View())
      modifies this`convs
      ensures View() == G.Next(old(View()), G.PollIdle(i))
      ensures |convs| == |old(convs)| && convs[i].pc == G.Waiting(expected)
      ensures expected == if G.Mapped(old(View()), i) && !old(convs)[i].closing && old(convs)[i].queue == []
                          then Some(old(convs)[i].activitySeq) else None
    {
      var seq_, idle := IdleSequence(i);
      expected := if idle then Some(seq_) else None;
      convs := convs[i := convs[i].(pc := G.Waiting(expected))];
    }

    // The select: the context, or a message.
    method SelectCanceled(i: nat)
      requires i < |convs| && convs[i].pc.Waiting? && canceled
      modifies this`convs
      ensures View() == G.Next(old(View()), G.SelectCanceled(i))
      ensures |convs| == |old(convs)| && convs[i].pc == G.Leaving(false)
    {
      convs := convs[i := convs[i].(pc := G.Leaving(false))];
    }

    method Receive(i: nat) returns (msg: G.Msg)
      requires i < |convs| && convs[i].pc.Waiting? && convs[i].queue != []
      modifies this`convs
      ensures View() == G.Next(old(View()), G.Receive(i))
      ensures |convs| == |old(convs)| && convs[i].pc == G.Processing && [msg] + convs[i].queue == old(convs[i].queue)
      ensures convs[i].dequeued == old(convs[i].dequeued) + [msg]
    {
      var c := convs[i];
      msg := c.queue[0];
      convs := convs[i := c.(queue := c.queue[1..], dequeued := c.dequeued + [msg], pc := G.Processing)];
    }

    method OpenSession(i: nat)
      requires i < |convs| && convs[i].pc.Processing?
      modifies this`convs
      ensures View() == G.Next(old(View()), G.OpenSession(i))
      ensures |convs| == |old(convs)| && convs[i] == old(convs[i]).(sessionOpen := true)
    {
      convs := convs[i := convs[i].(sessionOpen := true)];
    }

    method FinishMessage(i: nat)
      requires i < |convs| && convs[i].pc.Processing?
      modifies this`convs
      ensures View() == G.Next(old(View()), G.FinishMessage(i))
      ensures |convs| == |old(convs)| && convs[i] == old(convs[i]).(pc := G.Top)
    {
      convs := convs[i := convs[i].(pc := G.Top)];
    }

    method WorkerDone(i: nat)
      requires i < |convs| && convs[i].pc.Removed?
      modifies this`convs, this`workers
      ensures View() == G.Next(old(View()), G.WorkerDone(i))
      ensures |convs| == |old(convs)| && convs[i] == old(convs[i]).(pc := convs[i].pc) && convs[i].pc.Done?
      ensures workers == old(workers) - 1
    {
      convs := convs[i := convs[i].(pc := G.Done(convs[i].pc.evicted))];
      workers := workers - 1;
    }

    method IdleSequence(i: nat) returns (seq_: nat, idle: bool)
      requires i < |convs|
      ensures seq_ == convs[i].activitySeq
      ensures idle <==> G.Mapped(View(), i) && !convs[i].closing && convs[i].queue == []
    {
      var c := convs[i];
      seq_ := c.activitySeq;
      idle := c.key in conversations && conversations[c.key] == i && !c.closing && |c.queue| == 0;
    }

    method BeginEviction(i: nat, expected: nat) returns (ok: bool)
      requires i < |convs| && convs[i].pc == G.Waiting(Some(expected))
      requires G.ManagerLockFree(View())
      modifies this`convs
      ensures View() == G.Next(old(View()), G.Tick(i))
      // Only an unchanged, empty, mapped conversation of a running gateway is closed.
      ensures ok <==>
                && !canceled && G.Mapped(old(View()), i) && !old(convs)[i].closing
                && old(convs)[i].activitySeq == expected && old(convs)[i].queue == []
      ensures |convs| == |old(convs)| && convs[i].pc == if ok then G.Leaving(true) else G.Top
      ensures convs[i] == old(convs)[i].(pc := convs[i].pc, closing := convs[i].closing)
      ensures convs[i].closing <==> old(convs)[i].closing || ok
    {
      var c := convs[i];
      if canceled || !(c.key in conversations && conversations[c.key] == i) || c.closing || c.activitySeq != expected
         || |c.queue| != 0 {
        convs := convs[i := c.(pc := G.Top)];
        return false;
      }
      convs := convs[i := c.(closing := true, pc := G.Leaving(true))];
      return true;
    }

    // closeRuntime: its three parts, the middle one outside the lock.
    method MarkClosing(i: nat)
      requires i < |convs| && convs[i].pc.Leaving? && G.ManagerLockFree(View())
      modifies this`convs
      ensures View() == G.Next(old(View()), G.MarkClosing(i))
      ensures |convs| == |old(convs)| && convs[i].pc.Closing? && convs[i].closing
    {
      convs := convs[i := convs[i].(closing := true, pc := G.Closing(convs[i].pc.evicted))];
    }

    method CloseSession(i: nat)
      requires i < |convs| && convs[i].pc.Closing?
      modifies this`convs
      ensures View() == G.Next(old(View()), G.CloseSession(i))
      ensures |convs| == |old(convs)| && convs[i].pc.Closed? && !convs[i].sessionOpen
    {
      convs := convs[i := convs[i].(sessionOpen := false, pc := G.Closed(convs[i].pc.evicted))];
    }

    method FinishEviction(i: nat) returns (count: nat)
      requires i < |convs| && convs[i].pc.Closed? && G.ManagerLockFree(View())
      modifies this`convs, this`conversations
      ensures View() == G.Next(old(View()), G.FinishEviction(i))
      ensures count == |conversations|
      ensures |convs| == |old(convs)| && convs[i].pc.Removed? && convs[i].sessionOpen == old(convs[i].sessionOpen)
      ensures conversations == if G.Mapped(old(View()), i) then old(conversations) - {old(convs)[i].key} else old(conversations)
      ensures !G.Mapped(View(), i)
    {
      var c := convs[i];
      if c.key in conversations && conversations[c.key] == i {
        conversations := conversations - {c.key};
      }
      convs := convs[i := c.(pc := G.Removed(c.pc.evicted))];
      return |conversations|;
    }

    // The whole teardown of a conversation whose worker has left its loop.
    method CloseRuntime(i: nat) returns (count: nat)
      requires i < |convs| && convs[i].pc.Leaving? && G.ManagerLockFree(View())
      modifies this`convs, this`conversations
      ensures View() == G.Next(G.Next(G.Next(old(View()), G.MarkClosing(i)), G.CloseSession(i)), G.FinishEviction(i))
      ensures !convs[i].sessionOpen && convs[i].pc.Removed? && !G.Mapped(View(), i)
    {
      hide G.Next;
      MarkClosing(i);
      CloseSession(i);
      count := FinishEviction(i);
    }
  }

  predicate SameMap(s: G.State, t: G.State) {
    t.convs == s.convs && t.conversations == s.conversations && t.workers == s.workers && t.canceled == s.canceled
  }

  lemma BeginOutcome(s: G.State, callerCanceled: bool)
    requires s.admission.Admitting?
    ensures var t := G.Next(s, G.EnqueueBegin(callerCanceled));
            && SameMap(s, t)
            && t.admission == if s.canceled || callerCanceled then G.Idle else G.Enqueuing(s.admission.msg)
  {
  }

  lemma SameTarget(s: G.State, t: G.State, msg: G.Msg)
    requires SameMap(s, t)
    ensures Target(s, msg) == Target(t, msg)
  {
  }

  lemma LookupOutcome(s: G.State, msg: G.Msg)
    requires G.Inv(s) && s.admission == G.Enqueuing(msg)
    ensures forall k :: k in s.conversations ==> s.conversations[k] < |s.convs|
    ensures var t, c := G.Next(s, G.Lookup), Target(s, msg);
            && t.canceled == s.canceled
            && (msg.key !in s.conversations ==> c.queue == [])
            && if c.closing then t.admission == G.Idle && SameMap(s, t)
               else FoundIn(t, c, msg) && (msg.key in s.conversations ==> SameMap(s, t))
  {
  }

  // The admission of `msg` has found conversation `c`.
  ghost predicate FoundIn(s: G.State, c: G.Conv, msg: G.Msg) {
    && s.admission.Found? && s.admission.msg == msg && s.admission.conv < |s.convs|
    && s.convs[s.admission.conv] == c
    && msg.key in s.conversations && s.conversations[msg.key] == s.admission.conv
  }

  lemma SendOutcome(s: G.State, c: G.Conv, msg: G.Msg)
    requires FoundIn(s, c, msg) && G.Inv(s)
    ensures !c.closing
    ensures var t := G.Next(s, G.Send);
            && t.canceled == s.canceled
            && if |c.queue| >= G.QUEUE_SIZE then t.admission == G.Idle && SameMap(s, t)
               else
                 && t.admission == G.Sent(msg, s.admission.conv) && t.conversations == s.conversations
                 && s.admission.conv < |t.convs|
                 && t.convs[s.admission.conv] == c.(queue := c.queue + [msg], admitted := c.admitted + [msg])
  {
  }

  lemma BumpOutcome(s0: G.State, s: G.State, c: G.Conv, msg: G.Msg)
    requires c == Target(s0, msg)
    requires s.admission.Sent? && s.admission.conv < |s.convs|
    requires msg.key in s.conversations && s.conversations[msg.key] == s.admission.conv
    requires s.convs[s.admission.conv] == c.(queue := c.queue + [msg], admitted := c.admitted + [msg])
    ensures var t := G.Next(s, G.Bump);
            t.admission == G.Idle && t.canceled == s.canceled && AcceptedInto(s0, t, msg)
  {
  }
}
