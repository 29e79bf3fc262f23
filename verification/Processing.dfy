/** What a worker does with one message (internal/gateway/conversation.go,
    `process`): it finds its session and its runner once, and runs only on a
    message that is stored. */
module Processing {
  import opened Basics
  import opened Schema
  import opened Events
  import opened FileStore
  import opened Sessions

  // The runner factory fails, gives nothing, or gives a runner.
  datatype Factory = FactoryFails | NoRunner | Runner

  // Outcomes of the calls; `canceled...` is the context where it is looked at.
  datatype ProcessIo = ProcessIo(
    canceled: bool, open: OpenIo, canceledResolved: bool, factory: Factory, canceledReady: bool,
    appendCanceled: bool, append: AppendIo)
  {
    predicate Canceled() {
      canceled || canceledResolved || canceledReady
    }

    // Nothing is canceled and every call succeeds.
    predicate Fine(events: seq<Event>) {
      !Canceled() && open.Fine() && factory.Runner? && !appendCanceled
      && !append.canceled && append.guard.Fine() && FineAppend(append, events)
    }
  }

  datatype ProcessResult = Stopped | ResolveFailed | RunnerFailed | RunnerMissing | SaveFailed | Ran

  class ConversationRuntime {
    const service: SessionService
    const meta: Metadata
    const usage: Usage
    var session: Session?
    var hasRunner: bool

    // The session of the conversation is the open one of its service.
    ghost predicate Valid()
      reads this, service, service.file, service.known
    {
      && service.Valid() && meta.id == service.file.id
      && (session != null ==> session == service.current && !session.closed)
      && (hasRunner ==> session != null)
    }

    constructor (service: SessionService, meta: Metadata, usage: Usage)
      requires service.Valid() && meta.id == service.file.id
      ensures Valid() && this.service == service && this.meta == meta && this.usage == usage
      ensures session == null && !hasRunner
    {
      this.service, this.meta, this.usage, session, hasRunner := service, meta, usage, null, false;
    }

    // The runner is started exactly on a message that has become the last of the
    // stored history. Otherwise the session, opened before or just now, holds
    // what was stored when the message came, and nothing for a new session.
    // Session and runner, once found, are kept for the messages that follow.
    method Process(text: string, now: int, io: ProcessIo) returns (r: ProcessResult)
      requires Valid()
      modifies this, service, service.file, service.known
      ensures Valid()
      ensures old(session) != null ==> session == old(session)
      ensures old(hasRunner) ==> hasRunner
      ensures r == Ran ==>
                && session != null && hasRunner
                && session.history != [] && session.history[|session.history| - 1] == UserMessage(text)
                && service.file.Durable().Ok? && service.file.Durable().value.history == session.history
      ensures session != null ==>
                session.history == Found(old(service.file.Durable())) + (if r == Ran then [UserMessage(text)] else [])
      ensures old(session) != null ==> Found(old(service.file.Durable())) == old(session.history)
      ensures r == Ran ==> !io.Canceled() && (old(hasRunner) || io.factory.Runner?)
      // With a session it runs exactly when nothing cancels it, there is a runner,
      // and the message can be stored; without one it runs when nothing fails.
      ensures old(session) != null ==>
                (r == Ran <==>
                   && !io.Canceled() && (old(hasRunner) || io.factory.Runner?)
                   && !io.appendCanceled && !io.append.canceled && !io.append.guard.canceled
                   && old(service.file.Stores(io.append, MessageEvents([UserMessage(text)], now))))
      ensures (io.Fine(MessageEvents([UserMessage(text)], now)) && meta.id != ""
               && (old(service.file.present) ==> old(service.file.Durable()).Ok?)) ==> r == Ran
      ensures old(session) == null && r == ResolveFailed ==> session == null
    {
      hide SnapshotOf, Tail, ApplyAll, Lines, SessionFile.Valid, SessionFile.Durable, FineAppend, SessionFile.Stores, MessageEvents, UserMessage, OpenIo.Fine;
      if io.canceled {
        return Stopped;
      }
      if session == null {
        var resolved := Resolve(now, io.open);
        if !resolved {
          return ResolveFailed;
        }
      }
      if io.canceledResolved {
        return Stopped;
      }
      if !hasRunner {
        if io.factory.FactoryFails? {
          return RunnerFailed;
        }
        hasRunner := io.factory.Runner?;
      }
      if io.canceledReady {
        return Stopped;
      }
      if !hasRunner {
        return RunnerMissing;
      }
      var err := Save(text, now, io.appendCanceled, io.append);
      return if err.Some? then SaveFailed else Ran;
    }

    method Resolve(now: int, io: OpenIo) returns (ok: bool)
      requires Valid() && session == null
      modifies this`session, service, service.file, service.known
      ensures Valid() && ok == (session != null)
      ensures ok ==> session in old(service.known) || fresh(session)
      ensures ok ==> session.history == Found(old(service.file.Durable()))
      ensures io.Fine() && meta.id != "" && (old(service.file.present) ==> old(service.file.Durable()).Ok?) ==> ok
    {
      hide SnapshotOf, Tail, ApplyAll, Lines, SessionFile.Valid, SessionFile.Durable;
      var resolved := service.GetOrCreate(meta, usage, now, io);
      if resolved.Ok? {
        session := resolved.value;
      }
      return resolved.Ok?;
    }

    // The session stays equal to what is stored.
    method Save(text: string, now: int, canceled: bool, io: AppendIo) returns (err: Option<StoreError>)
      requires Valid() && session != null
      modifies session, service.file
      ensures Valid() && session.history == old(session.history) + (if err.None? then [UserMessage(text)] else [])
      ensures service.file.Durable().Ok? && service.file.Durable().value.history == session.history
      ensures err.None? <==>
                !canceled && !io.canceled && !io.guard.canceled
                && old(service.file.Stores(io, MessageEvents([UserMessage(text)], now)))
      ensures !canceled && !io.canceled && io.guard.Fine() && FineAppend(io, MessageEvents([UserMessage(text)], now)) ==>
                err.None?
    {
      hide SnapshotOf, Tail, ApplyAll, Lines, SessionFile.Valid, SessionFile.Durable, FineAppend, SessionFile.Stores, MessageEvents;
      UserMessageIsEncodable(text, now);
      err := session.Append([UserMessage(text)], now, canceled, io);
    }
  }

  lemma UserMessageIsEncodable(text: string, now: int)
    ensures AllEncodable(MessageEvents([UserMessage(text)], now))
  {
    assert MessageEvents([UserMessage(text)], now) == [MessageEvent(UserMessage(text), now)];
  }

  function UserMessage(text: string): Message {
    Message(ROLE_USER, text, [], "", None)
  }
}
