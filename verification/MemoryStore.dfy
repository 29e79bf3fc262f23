/** The in-memory store (`MemoryStore` of internal/sessionstore/store.go), for
    one session ID, and how it agrees with the file store. */
module MemoryStores {
  import opened Basics
  import opened Events
  import opened FileStore
  import opened StoreRuns

  class MemoryStore {
    const id: string
    var entry: Option<Snapshot>
    // The lock that holds the session, and how many were ever made.
    var writer: Option<nat>
    var made: nat

    function Stored(): Result<Snapshot, StoreError>
      reads this
    {
      match entry
      case None => Err(NotFound)
      case Some(s) => Ok(s)
    }

    ghost predicate Valid()
      reads this
    {
      (writer.Some? ==> writer.value < made) && (entry.Some? ==> entry.value.metadata.id == id != "")
    }

    constructor (id: string)
      ensures Valid() && this.id == id && entry == None && writer == None
    {
      this.id, entry, writer, made := id, None, None, 0;
    }

    method AcquireWriter(canceled: bool, canceledHeld: bool) returns (r: Result<nat, StoreError>)
      requires Valid()
      modifies this`writer, this`made
      ensures Valid()
      ensures r.Ok? <==> !canceled && !canceledHeld && old(writer) == None
      ensures r.Ok? ==> writer == Some(r.value) && r.value == old(made) < made
      ensures r.Err? ==> writer == old(writer)
    {
      if canceled {
        return Err(Canceled);
      }
      var lock := made;
      made := made + 1;
      if writer.Some? {
        return Err(InUse);
      }
      writer := Some(lock);
      if canceledHeld {
        Release(lock);
        return Err(Canceled);
      }
      return Ok(lock);
    }

    // Compare and delete: a late release frees nobody else's lock.
    method Release(lock: nat)
      requires Valid()
      modifies this`writer
      ensures Valid()
      ensures writer == if old(writer) == Some(lock) then None else old(writer)
    {
      if writer == Some(lock) {
        writer := None;
      }
    }

    method Create(s: Snapshot, canceled: bool) returns (err: Option<StoreError>)
      requires Valid() && s.metadata.id == id
      modifies this`entry
      ensures Valid()
      ensures err.None? <==> !canceled && id != "" && old(entry) == None
      ensures Stored() == if err.None? then Ok(s) else old(Stored())
    {
      if canceled {
        return Some(Canceled);
      }
      if s.metadata.id == "" {
        return Some(IdRequired);
      }
      if entry.Some? {
        return Some(Exists);
      }
      entry := Some(s);
      return None;
    }

    // The candidate is built apart and stored only when nothing went wrong.
    method Append(events: seq<Event>, canceled: bool, canceledLocked: bool, canceledApplied: bool)
      returns (err: Option<StoreError>)
      requires Valid()
      modifies this`entry
      ensures Valid()
      ensures err.None? <==> !canceled && !canceledLocked && !canceledApplied
                             && old(Stored()).Ok? && ApplyAll(old(Stored()).value, events).Ok?
      ensures Stored() == if err.None? then ApplyAll(old(Stored()).value, events) else old(Stored())
    {
      hide ApplyAll;
      if canceled {
        return Some(Canceled);
      }
      if entry.None? {
        return Some(NotFound);
      }
      if canceledLocked {
        return Some(Canceled);
      }
      var next := ApplyEvents(entry.value, events);
      if next.Err? {
        return Some(next.error);
      }
      if canceledApplied {
        return Some(Canceled);
      }
      ApplyAllKeeps(entry.value, events);
      entry := Some(next.value);
      return None;
    }

    method Load(canceled: bool) returns (r: Result<Snapshot, StoreError>)
      ensures r == if canceled then Err(Canceled) else Stored()
    {
      if canceled {
        return Err(Canceled);
      }
      return Stored();
    }

    // Nobody's session is deleted under them.
    method Delete(canceled: bool, canceledHeld: bool) returns (err: Option<StoreError>)
      requires Valid()
      modifies this
      ensures Valid() && writer == old(writer)
      ensures err.None? <==> !canceled && !canceledHeld && old(writer) == None && old(entry).Some?
      ensures entry == if err.None? then None else old(entry)
    {
      var lock := AcquireWriter(canceled, canceledHeld);
      if lock.Err? {
        return Some(lock.error);
      }
      if entry.None? {
        err := Some(NotFound);
      } else {
        entry := None;
        err := None;
      }
      Release(lock.value);
    }
  }

  // ---------- the two stores ----------

  // What both stores must agree on. The file store derives the message count
  // and the time of the last update from the events; a created entry in memory
  // keeps those it was given.
  predicate SameFacts(a: Result<Snapshot, StoreError>, b: Result<Snapshot, StoreError>) {
    if a.Ok? && b.Ok? then
      && a.value.metadata.id != ""
      && a.value.metadata.(updatedAt := 0, messages := 0) == b.value.metadata.(updatedAt := 0, messages := 0)
      && a.value.history == b.value.history && a.value.usage == b.value.usage
    else a.Err? && b.Err?
  }

  lemma ApplySameFacts(s: Snapshot, t: Snapshot, e: Event)
    requires SameFacts(Ok(s), Ok(t))
    ensures SameFacts(Apply(s, e), Apply(t, e))
  {
    assert s.metadata.id == s.metadata.(updatedAt := 0, messages := 0).id == t.metadata.id;
  }

  lemma {:induction false} ApplyAllSameFacts(s: Snapshot, t: Snapshot, es: seq<Event>)
    requires SameFacts(Ok(s), Ok(t))
    ensures SameFacts(ApplyAll(s, es), ApplyAll(t, es))
    decreases es
  {
    hide Apply;
    if es != [] {
      ApplySameFacts(s, t, es[0]);
      if Apply(s, es[0]).Ok? {
        ApplyAllSameFacts(Apply(s, es[0]).value, Apply(t, es[0]).value, es[1..]);
      }
    }
  }

  // An operation during which every call succeeds, on values the encoder takes.
  predicate Undisturbed(op: Op) {
    match op
    case CreateOp(s, now, io) => io.Fine() && AllEncodable(Creation(s, now))
    case AppendOp(events, io) =>
      !io.canceled && io.guard.Fine() && FineAppend(io, events) && AllEncodable(events)
    case LoadOp(io, guard) => !io.canceled && guard.Fine() && io.Fine()
  }

  predicate AllUndisturbed(ops: seq<Op>) {
    forall i :: 0 <= i < |ops| ==> Undisturbed(ops[i])
  }

  method PerformInMemory(m: MemoryStore, op: Op) returns (outcome: Outcome)
    requires m.Valid()
    requires op.CreateOp? ==> op.snapshot.metadata.id == m.id
    modifies m
    ensures m.Valid()
    ensures match op
            case CreateOp(s, _, _) =>
              && outcome == (if old(m.Stored()).Err? && m.id != "" then Published else Refused)
              && m.Stored() == (if outcome == Published then Ok(s) else old(m.Stored()))
            case AppendOp(events, _) =>
              && outcome == (if old(m.Stored()).Ok? && ApplyAll(old(m.Stored()).value, events).Ok? then Stored else Refused)
              && m.Stored() == (if outcome == Stored then ApplyAll(old(m.Stored()).value, events) else old(m.Stored()))
            case LoadOp(_, _) =>
              && outcome == (if old(m.Stored()).Ok? then Loaded(old(m.Stored()).value) else Refused)
              && m.Stored() == old(m.Stored())
  {
    hide ApplyAll;
    match op
    case CreateOp(s, _, _) =>
      var err := m.Create(s, false);
      outcome := if err.None? then Published else Refused;
    case AppendOp(events, _) =>
      var err := m.Append(events, false, false, false);
      outcome := if err.None? then Stored else Refused;
    case LoadOp(_, _) =>
      var r := m.Load(false);
      outcome := if r.Ok? then Loaded(r.value) else Refused;
  }

  ghost predicate Agree(f: SessionFile, m: MemoryStore)
    reads f, m
  {
    && f.Valid() && f.leased && m.Valid() && f.id == m.id
    && (f.present ==> f.Durable().Ok?)
    && SameFacts(f.Durable(), m.Stored())
  }

  predicate SameOutcome(a: Outcome, b: Outcome) {
    match a
    case Loaded(s) => b.Loaded? && SameFacts(Ok(s), Ok(b.snapshot))
    case _ => a == b
  }

  lemma CreationSameFacts(s: Snapshot, now: int)
    requires s.metadata.id != ""
    ensures SameFacts(ApplyAll(EMPTY, Creation(s, now)), Ok(s))
  {
    hide ApplyAll, Creation;
    CreationRebuilds(s, now);
  }

  lemma BatchSameFacts(a: Result<Snapshot, StoreError>, b: Result<Snapshot, StoreError>, events: seq<Event>)
    requires SameFacts(a, b) && a.Ok?
    ensures SameFacts(ApplyAll(a.value, events), ApplyAll(b.value, events))
  {
    ApplyAllSameFacts(a.value, b.value, events);
  }

  method PerformBoth(f: SessionFile, m: MemoryStore, op: Op) returns (a: Outcome, b: Outcome)
    requires Agree(f, m) && Undisturbed(op)
    requires op.CreateOp? ==> op.snapshot.metadata.id == f.id
    modifies f, m
    ensures Agree(f, m) && SameOutcome(a, b)
  {
    hide Creation, ApplyAll, FineAppend, AllEncodable;
    ghost var stored, durable := m.Stored(), f.Durable();
    b := PerformInMemory(m, op);
    a := PerformUndisturbed(f, op);
    match op
    case CreateOp(s, now, _) =>
      if a.Published? {
        CreationSameFacts(s, now);
      }
    case AppendOp(events, _) =>
      if durable.Ok? {
        BatchSameFacts(durable, stored, events);
      }
    case LoadOp(_, _) =>
  }

  // The file store when nothing fails.
  method PerformUndisturbed(f: SessionFile, op: Op) returns (outcome: Outcome)
    requires f.Valid() && f.leased && Undisturbed(op) && (f.present ==> f.Durable().Ok?)
    requires op.CreateOp? ==> op.snapshot.metadata.id == f.id
    modifies f
    ensures f.Valid() && f.leased && (f.present ==> f.Durable().Ok?)
    ensures match op
            case CreateOp(s, now, _) =>
              && outcome == (if old(f.Durable()).Err? && f.id != "" then Published else Refused)
              && f.Durable() == (if outcome == Published then ApplyAll(EMPTY, Creation(s, now)) else old(f.Durable()))
              && (outcome == Published ==> f.Durable().Ok?)
            case AppendOp(events, _) =>
              && outcome == (if old(f.Durable()).Ok? && ApplyAll(old(f.Durable()).value, events).Ok? then Stored else Refused)
              && f.Durable() == (if outcome == Stored then ApplyAll(old(f.Durable()).value, events) else old(f.Durable()))
            case LoadOp(_, _) =>
              && outcome == (if old(f.Durable()).Ok? then Loaded(old(f.Durable()).value) else Refused)
              && f.Durable() == old(f.Durable())
  {
    hide Creation, ApplyAll, FineAppend, AllEncodable;
    match op
    case CreateOp(s, now, io) =>
      var err := f.Create(s, now, io);
      outcome := if err.None? then Published else Refused;
    case AppendOp(events, io) =>
      ghost var before := f.Durable();
      if before.Ok? {
        ApplyNone(before.value);
      }
      var err := f.Append(events, io);
      outcome := if err.None? then Stored else Refused;
    case LoadOp(io, guard) =>
      var r := f.Load(io, guard);
      outcome := if r.Ok? then Loaded(r.value) else Refused;
  }

  // Over any run that nothing disturbs, the two stores cannot be told apart.
  method RunBoth(f: SessionFile, m: MemoryStore, ops: seq<Op>) returns (a: seq<Outcome>, b: seq<Outcome>)
    requires Agree(f, m) && ForSession(f.id, ops)
    requires AllUndisturbed(ops)
    modifies f, m
    ensures Agree(f, m)
    ensures |a| == |b| == |ops| && forall i :: 0 <= i < |ops| ==> SameOutcome(a[i], b[i])
  {
    hide Agree, Undisturbed, SameOutcome;
    a, b := [], [];
    for k := 0 to |ops|
      invariant Agree(f, m) && |a| == |b| == k
      invariant forall i :: 0 <= i < k ==> SameOutcome(a[i], b[i])
    {
      assert ops[k] in ops;
      var x, y := PerformBoth(f, m, ops[k]);
      a, b := a + [x], b + [y];
    }
  }
}
