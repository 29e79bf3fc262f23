/** An open session and the service that opens it (internal/context/session.go,
    internal/context/service.go): the in-memory twin of the stored session. */
module Sessions {
  import opened Basics
  import opened Schema
  import opened Events
  import opened FileStore
  import opened Replay

  // The stored totals an open session carries. Its billing mode comes from the
  // metadata instead.
  predicate SameTotals(a: Usage, b: Usage) {
    a.(billingMode := "") == b.(billingMode := "")
  }

  // The metadata but for what the store derives from the events.
  predicate SameSession(a: Metadata, b: Metadata) {
    a.(updatedAt := 0, messages := 0) == b.(updatedAt := 0, messages := 0)
  }

  // Token counts and billing reported for one model call.
  datatype Billing = Billing(costKnown: bool, estimatedCost: int)

  function AddUsage(u: Usage, prompt: int, completion: int, b: Billing): Usage {
    u.(promptTokens := u.promptTokens + prompt,
       completionTokens := u.completionTokens + completion,
       costKnown := u.costKnown && b.costKnown,
       estimatedCost := if b.costKnown then u.estimatedCost + b.estimatedCost else u.estimatedCost)
  }

  // The history a session is opened with.
  function Found(stored: Result<Snapshot, StoreError>): seq<Message> {
    if stored.Ok? then stored.value.history else []
  }

  class Session {
    const file: SessionFile
    const meta: Metadata
    var closed: bool
    var history: seq<Message>
    var usage: Usage

    // While it is open, a session owns the writer lease and equals what is stored.
    ghost predicate Mirrors()
      reads this, file
    {
      && file.Valid()
      && (!closed ==>
            && file.leased
            && file.Durable().Ok?
            && SameSession(file.Durable().value.metadata, meta)
            && file.Durable().value.history == history
            && SameTotals(file.Durable().value.usage, usage))
    }

    constructor (file: SessionFile, meta: Metadata, history: seq<Message>, usage: Usage)
      ensures this.file == file && this.meta == meta && this.history == history && this.usage == usage && !closed
    {
      this.file := file;
      this.meta := meta;
      this.history := history;
      this.usage := usage;
      closed := false;
    }

    method Append(messages: seq<Message>, now: int, canceled: bool, io: AppendIo) returns (err: Option<StoreError>)
      requires Mirrors()
      modifies this, file
      ensures Mirrors()
      ensures closed == old(closed) && file.leased == old(file.leased)
      ensures usage == old(usage)
      ensures history == if err.None? then old(history) + messages else old(history)
      ensures err.None? <==>
                !canceled && !old(closed) && !io.canceled && !io.guard.canceled
                && old(file.Stores(io, MessageEvents(messages, now)))
      ensures (!canceled && !old(closed) && !io.canceled && io.guard.Fine()
              && FineAppend(io, MessageEvents(messages, now)) && AllEncodable(MessageEvents(messages, now)))
              ==> err.None?
      ensures err.Some? ==> file.Durable() == old(file.Durable())
      ensures closed ==> err.Some?
    {
      hide ReplayAll, Lines, SnapshotOf, ApplyAll, MessageEvents, FineAppend, AllEncodable;
      if canceled {
        return Some(Canceled);
      }
      if closed {
        return Some(SessionClosed);
      }
      StoredHasId(file);
      ApplyMessages(file.Durable().value, messages, now);
      err := file.Append(MessageEvents(messages, now), io);
      if err.Some? {
        return;
      }
      history := history + messages;
    }

    method RecordUsage(prompt: int, completion: int, billing: Billing, now: int, canceled: bool, io: AppendIo)
      returns (err: Option<StoreError>)
      requires Mirrors()
      modifies this, file
      ensures Mirrors()
      ensures closed == old(closed) && file.leased == old(file.leased)
      ensures history == old(history)
      ensures err.None? <==>
                !canceled && !old(closed) && !io.canceled && !io.guard.canceled
                && old(file.Stores(io, [UsageEvent(AddUsage(usage, prompt, completion, billing), now)]))
      ensures usage == if err.None? then AddUsage(old(usage), prompt, completion, billing) else old(usage)
      // Counts are added to their own totals; a cost is added when it is known, and
      // stays known only while every one is.
      ensures err.None? ==>
                && usage.promptTokens == old(usage.promptTokens) + prompt
                && usage.completionTokens == old(usage.completionTokens) + completion
                && usage.estimatedCost == old(usage.estimatedCost) + (if billing.costKnown then billing.estimatedCost else 0)
                && (usage.costKnown <==> old(usage.costKnown) && billing.costKnown)
                && usage.currency == old(usage.currency) && usage.billingMode == old(usage.billingMode)
      ensures err.Some? ==> file.Durable() == old(file.Durable())
      ensures closed ==> err.Some?
    {
      hide ReplayAll, Lines, SnapshotOf, ApplyAll;
      if canceled {
        return Some(Canceled);
      }
      if closed {
        return Some(SessionClosed);
      }
      var u := AddUsage(usage, prompt, completion, billing);
      StoredHasId(file);
      ApplyUsage(file.Durable().value, u, now);
      err := file.Append([UsageEvent(u, now)], io);
      if err.Some? {
        return;
      }
      usage := u;
    }
  }

  lemma ApplyUsage(s: Snapshot, u: Usage, now: int)
    requires s.metadata.id != ""
    ensures var r := ApplyAll(s, [UsageEvent(u, now)]);
            r.Ok? && r.value.history == s.history && r.value.usage == u && SameSession(r.value.metadata, s.metadata)
  {
    assert ApplyAll(Apply(s, UsageEvent(u, now)).value, []) == Apply(s, UsageEvent(u, now));
  }

  lemma StoredHasId(f: SessionFile)
    requires f.Durable().Ok?
    ensures f.Durable().value.metadata.id == f.id && f.id != ""
  {
    hide ReplayFrom;
  }

  datatype OpenIo = OpenIo(
    canceled: bool, lease: LeaseIo, create: CreateIo, createAgain: LeaseIo, load: LoadIo, guard: GuardIo, workDir: bool)
  {
    predicate Fine() {
      !canceled && lease.Fine() && create.Fine() && createAgain.Fine() && load.Fine() && guard.Fine() && workDir
    }
  }

  /** The service, for one session ID. */
  class SessionService {
    const file: SessionFile
    var current: Session?

    // Every session this service ever opened.
    ghost var known: set<Session>

    ghost predicate Valid()
      reads this, file, known
    {
      && file.Valid()
      && (current != null ==> current in known)
      && (forall s :: s in known ==> s.file == file)
      // At most one open session, and exactly it owns the lease.
      && (forall s :: s in known && !s.closed ==> s == current)
      && (file.leased <==> current != null && !current.closed)
      && (current != null ==> current.Mirrors())
    }

    constructor (file: SessionFile)
      requires file.Valid() && !file.leased
      ensures Valid() && fresh(this) && this.file == file && known == {}
    {
      this.file := file;
      current := null;
      known := {};
    }

    method Attach(meta: Metadata, history: seq<Message>, usage: Usage) returns (s: Session)
      requires file.Valid() && file.leased && file.Durable().Ok?
      requires SameSession(file.Durable().value.metadata, meta)
      requires file.Durable().value.history == history && SameTotals(file.Durable().value.usage, usage)
      requires forall s :: s in known ==> s.file == file && s.closed
      modifies this`current, this`known
      ensures Valid() && fresh(s) && current == s && !s.closed
      ensures known == old(known) + {s}
      ensures s.meta == meta && s.history == history && s.usage == usage
    {
      s := new Session(file, meta, history, usage);
      current := s;
      known := known + {s};
    }

    method CreateSession(meta: Metadata, usage: Usage, now: int, lease: LeaseIo, io: CreateIo)
      returns (r: Result<Session, StoreError>)
      requires Valid()
      requires meta.id == file.id
      modifies this, file
      ensures Valid()
      ensures forall s :: s in old(known) ==> s in known
      ensures r.Ok? ==> current == r.value && !r.value.closed && fresh(r.value) && r.value.history == []
                        && r.value.usage == usage && r.value.meta == meta && !old(file.leased) && !old(file.present)
      // A call in which nothing fails creates the session unless there is one.
      ensures lease.Fine() && io.Fine() && meta.id != "" && !old(file.leased) && !old(file.present) ==> r.Ok?
      // Every failing path gives the lease back.
      ensures r.Err? ==> file.leased == old(file.leased) && current == old(current)
    {
      hide ReplayAll, SnapshotOf, ApplyAll, Creation;
      EmptyIsEncodable(Snapshot(meta, [], usage), now);
      var err := file.AcquireWriter(lease);
      if err.Some? {
        return Err(err.value);
      }
      CreationIfPossible(Snapshot(meta, [], usage), now);
      err := file.Create(Snapshot(meta, [], usage), now, io);
      if err.Some? {
        file.ReleaseWriter();
        return Err(err.value);
      }
      var s := Attach(meta, [], usage);
      return Ok(s);
    }

    // `load`: an open session is shared; otherwise the stored one is opened
    // under a new lease, provided its working directory is still there.
    method LoadSession(io: OpenIo) returns (r: Result<Session, StoreError>)
      requires Valid()
      modifies this, file
      ensures Valid()
      ensures forall s :: s in old(known) ==> s in known
      ensures file.Durable() == old(file.Durable()) && file.present == old(file.present)
      ensures r.Ok? ==> current == r.value && !r.value.closed && r.value.history == Found(old(file.Durable()))
      ensures r.Ok? ==> if old(file.leased) then r.value == old(current) else fresh(r.value)
      ensures r.Ok? && !old(file.leased) ==>
                old(file.Durable()).Ok?
                && r.value.usage == old(file.Durable()).value.usage.(billingMode := r.value.meta.billingMode)
      // It is given exactly when it is open already, or the lease is to be had,
      // the session loads and its directory is still there.
      ensures !io.canceled && old(file.leased) ==> r.Ok?
      ensures !io.canceled && !old(file.leased) && io.lease.Fine() && !io.load.canceled && io.guard.Fine() && io.load.Fine() ==>
                && (r.Ok? <==> old(file.Durable()).Ok? && io.workDir)
                && (old(file.Durable()).Err? ==> r == Err(old(file.Durable()).error))
      ensures r.Err? ==> file.leased == old(file.leased) && current == old(current)
    {
      hide ReplayAll, SnapshotOf;
      if io.canceled {
        return Err(Canceled);
      }
      if current != null && !current.closed {
        return Ok(current);
      }
      var err := file.AcquireWriter(io.lease);
      if err.Some? {
        return Err(err.value);
      }
      var loaded := file.Load(io.load, io.guard);
      if loaded.Err? {
        file.ReleaseWriter();
        return Err(loaded.error);
      }
      if !io.workDir {
        file.ReleaseWriter();
        return Err(IoFailed);
      }
      var snap := loaded.value;
      var s := Attach(snap.metadata, snap.history, snap.usage.(billingMode := snap.metadata.billingMode));
      return Ok(s);
    }

    method GetOrCreate(meta: Metadata, usage: Usage, now: int, io: OpenIo) returns (r: Result<Session, StoreError>)
      requires Valid()
      requires meta.id == file.id
      modifies this, file
      ensures Valid()
      ensures forall s :: s in old(known) ==> s in known
      ensures r.Ok? ==> current == r.value && !r.value.closed
      ensures r.Ok? ==> if old(file.leased) then r.value == old(current) else fresh(r.value)
      // When nothing fails and nothing is corrupted there is a session.
      ensures io.Fine() && meta.id != "" && (old(file.present) ==> old(file.Durable()).Ok?) ==> r.Ok?
      // The session holds what was stored before, or is new and empty.
      ensures r.Ok? ==> r.value.history == Found(old(file.Durable()))
      ensures r.Err? ==> file.leased == old(file.leased) && current == old(current)
    {
      r := LoadSession(io);
      if r.Err? && r.error == NotFound {
        r := CreateSession(meta, usage, now, io.createAgain, io.create);
      }
    }

    // Closing is idempotent: a late Close of an old session neither ends the
    // lease of its successor nor forgets it.
    method Close(s: Session)
      requires Valid()
      requires s in known
      modifies this`current, file, s`closed
      ensures Valid()
      ensures s.closed
      ensures old(s.closed) ==> current == old(current) && file.leased == old(file.leased)
      ensures !old(s.closed) ==> !file.leased
      ensures file.Durable() == old(file.Durable())
      ensures known == old(known)
    {
      hide ReplayAll, SnapshotOf;
      if s.closed {
        return;
      }
      s.closed := true;
      if current == s {
        current := null;
      }
      file.ReleaseWriter();
    }

    method Delete(io: DeleteIo) returns (err: Option<StoreError>)
      requires Valid()
      modifies this`current, file
      ensures Valid()
      // An open session cannot be deleted.
      ensures old(file.leased) ==> err.Some? && file.Durable() == old(file.Durable()) && current == old(current)
      ensures err.None? ==> current == null && !file.present
      ensures err.None? <==> old(file.present) && !file.present && io.syncDir && io.guard.release
    {
      hide ReplayAll, SnapshotOf;
      err := file.Delete(io);
      if err.Some? {
        return;
      }
      current := null;
    }
  }

  lemma CreationIfPossible(s: Snapshot, now: int)
    ensures s.metadata.id != "" ==>
              var r := ApplyAll(EMPTY, Creation(s, now));
              r.Ok? && r.value.history == s.history && r.value.usage == s.usage && SameSession(r.value.metadata, s.metadata)
  {
    hide ApplyAll, Creation;
    if s.metadata.id != "" {
      CreationRebuilds(s, now);
    }
  }
}
