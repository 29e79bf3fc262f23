/** Whole runs of the session store under a held writer lease, whatever I/O
    fails along the way, and the one case without a lease where an error does
    not mean that nothing was stored. */
module StoreRuns {
  import opened Basics
  import opened Schema
  import opened Events
  import opened FileStore
  import opened Replay

  datatype Op =
    | CreateOp(snapshot: Snapshot, now: int, create: CreateIo)
    | AppendOp(events: seq<Event>, append: AppendIo)
    | LoadOp(load: LoadIo, guard: GuardIo)

  datatype Outcome =
    | Published  // the session came into existence
    | Stored     // Append returned no error
    | Loaded(snapshot: Snapshot)
    | Refused

  // What one operation does to the stored session, judging by its outcome.
  function After(before: Result<Snapshot, StoreError>, op: Op, outcome: Outcome): Result<Snapshot, StoreError> {
    match op
    case CreateOp(s, now, _) => if outcome.Published? then ApplyAll(EMPTY, Creation(s, now)) else before
    case AppendOp(events, _) => if outcome.Stored? && before.Ok? then ApplyAll(before.value, events) else before
    case LoadOp(_, _) => before
  }

  function AfterAll(start: Result<Snapshot, StoreError>, ops: seq<Op>, outcomes: seq<Outcome>)
    : Result<Snapshot, StoreError>
    requires |ops| == |outcomes|
  {
    if ops == [] then start
    else
      var n := |ops| - 1;
      After(AfterAll(start, ops[..n], outcomes[..n]), ops[n], outcomes[n])
  }

  predicate ForSession(id: string, ops: seq<Op>) {
    forall op :: op in ops && op.CreateOp? ==> op.snapshot.metadata.id == id
  }

  method Perform(f: SessionFile, op: Op) returns (outcome: Outcome)
    requires f.Valid() && f.leased
    requires op.CreateOp? ==> op.snapshot.metadata.id == f.id
    modifies f
    ensures f.Valid() && f.leased
    ensures f.Durable() == After(old(f.Durable()), op, outcome)
    ensures outcome.Loaded? ==> f.Durable() == Ok(outcome.snapshot)
    ensures outcome.Stored? ==> op.AppendOp? && f.Durable().Ok?
    ensures outcome.Published? ==> op.CreateOp? && old(f.Durable()) == Err(NotFound) && f.Durable().Ok?
  {
    hide ReplayAll, ApplyAll, SnapshotOf, Creation;
    match op
    case CreateOp(s, now, io) =>
      var before := f.present;
      var err := f.Create(s, now, io);
      outcome := if f.present && !before then Published else Refused;
    case AppendOp(events, io) =>
      var err := f.Append(events, io);
      outcome := if err.None? then Stored else Refused;
      if events == [] && f.Durable().Ok? {
        ApplyNone(f.Durable().value);
      }
    case LoadOp(io, guard) =>
      var r := f.Load(io, guard);
      outcome := if r.Ok? then Loaded(r.value) else Refused;
  }

  lemma ApplyNone(s: Snapshot)
    ensures ApplyAll(s, []) == Ok(s)
  {
  }

  // Over any run and any pattern of failures, the stored session is the
  // starting one with exactly the successful batches applied in order, and
  // every successful load returns just that. No refused batch ever shows up.
  method Run(f: SessionFile, ops: seq<Op>) returns (outcomes: seq<Outcome>)
    requires f.Valid() && f.leased
    requires ForSession(f.id, ops)
    modifies f
    ensures f.Valid() && f.leased
    ensures |outcomes| == |ops|
    ensures f.Durable() == AfterAll(old(f.Durable()), ops, outcomes)
    ensures forall i :: 0 <= i < |ops| && outcomes[i].Loaded? ==>
              AfterAll(old(f.Durable()), ops[..i], outcomes[..i]) == Ok(outcomes[i].snapshot)
  {
    hide After, SessionFile.Valid, SessionFile.Durable;
    outcomes := [];
    ghost var start := f.Durable();
    assert ops[..0] == [];
    for k := 0 to |ops|
      invariant f.Valid() && f.leased
      invariant |outcomes| == k
      invariant f.Durable() == AfterAll(start, ops[..k], outcomes)
      invariant forall i :: 0 <= i < k && outcomes[i].Loaded? ==>
                  AfterAll(start, ops[..i], outcomes[..i]) == Ok(outcomes[i].snapshot)
    {
      assert ops[k] in ops;
      var outcome := Perform(f, ops[k]);
      ghost var longer := outcomes + [outcome];
      assert ops[..k + 1][..k] == ops[..k] && longer[..k] == outcomes;
      assert forall i :: 0 <= i < k ==> longer[..i] == outcomes[..i];
      LoadShowsStored(start, ops[k], AfterAll(start, ops[..k], outcomes), outcome);
      outcomes := outcomes + [outcome];
    }
    assert ops[..|ops|] == ops;
  }

  lemma LoadShowsStored(start: Result<Snapshot, StoreError>, op: Op, before: Result<Snapshot, StoreError>, outcome: Outcome)
    ensures outcome.Loaded? ==> After(before, op, outcome) == before
  {
  }

  // A run only ever adds: once the session exists, its ID stays and the
  // history only grows at its end.
  lemma {:induction false} RunsExtendHistory(start: Snapshot, ops: seq<Op>, outcomes: seq<Outcome>)
    requires |ops| == |outcomes|
    requires start.metadata.id != ""
    requires forall i :: 0 <= i < |ops| ==> !outcomes[i].Published?
    requires AfterAll(Ok(start), ops, outcomes).Ok?
    ensures var end := AfterAll(Ok(start), ops, outcomes).value;
            end.metadata.id == start.metadata.id && start.history <= end.history
  {
    hide ApplyAll;
    if ops != [] {
      var n := |ops| - 1;
      RunsExtendHistory(start, ops[..n], outcomes[..n]);
      var before := AfterAll(Ok(start), ops[..n], outcomes[..n]).value;
      if ops[n].AppendOp? && outcomes[n].Stored? {
        ApplyAllKeeps(before, ops[n].events);
      }
    }
  }

  // ---------- without a lease ----------

  const SAMPLE_METADATA := NO_METADATA.(id := "s")
  const SAMPLE := Snapshot(SAMPLE_METADATA, [], NO_USAGE)
  const SAMPLE_MESSAGE := Message(ROLE_USER, "hi", [], "", None)
  const FINE_RECOVERY := RecoveryIo(true, true, true, true, true, true)
  const FINE_LOAD := LoadIo(false, FINE_RECOVERY, true, false, true, false, false)

  // Every call succeeds but the release of the operation's own lock: Append
  // reports an error, and the batch is in the file for every later reader.
  method ErrorAfterCommit() returns (f: SessionFile, err: Option<StoreError>)
    ensures err.Some?
    ensures f.Durable().Ok? && f.Durable().value.history == [SAMPLE_MESSAGE]
  {
    hide ReplayAll, ApplyAll, SnapshotOf, Creation, Lines;
    CreatedFile(SAMPLE, 0);
    CreationRebuilds(SAMPLE, 0);
    f := new SessionFile("s", true, Lines(Creation(SAMPLE, 0)));
    var events := MessageEvents([SAMPLE_MESSAGE], 0);
    var before := f.Durable().value;
    ApplyMessages(before, [SAMPLE_MESSAGE], 0);
    var size := 1 + |Lines(events)|;
    var commit := CommitIo(false, true, false, true, true, true, true, true, size, true, true, true);
    var io := AppendIo(false, GuardIo(false, true, false), FINE_LOAD, commit, FINE_RECOVERY);
    err := f.Append(events, io);
    assert f.Durable() == ApplyAll(before, events);
  }

  // The directory sync after the link fails: Create reports an error, and the
  // session exists.
  method ErrorAfterLink() returns (f: SessionFile, err: Option<StoreError>)
    ensures err.Some?
    ensures f.present && f.Durable().Ok? && f.Durable().value.metadata.id == "s"
  {
    hide ReplayAll, ApplyAll, SnapshotOf, Creation, Lines;
    CreationRebuilds(SAMPLE, 0);
    EmptyIsEncodable(SAMPLE, 0);
    f := new SessionFile("s", false, []);
    err := f.Create(SAMPLE, 0, CreateIo(false, GuardIo(false, true, true), false, true, true, false, true));
  }

  // Under a lease, the write lands, the sync fails, the rollback cannot open
  // the file, and the process ends: the batch that Append refused is there.
  method FailedBatchAppears() returns (f: SessionFile, err: Option<StoreError>)
    ensures err.Some?
    ensures f.Durable().Ok? && f.Durable().value.history == [SAMPLE_MESSAGE]
  {
    hide ReplayAll, ApplyAll, SnapshotOf, Creation, Lines, Tail, Shown, Separator;
    CreatedFile(SAMPLE, 0);
    CreationRebuilds(SAMPLE, 0);
    f := new SessionFile("s", true, Lines(Creation(SAMPLE, 0)));
    var leased := f.AcquireWriter(LeaseIo(false, false, true, false));
    ghost var before := f.Durable().value;
    var events := MessageEvents([SAMPLE_MESSAGE], 0);
    ApplyMessages(before, [SAMPLE_MESSAGE], 0);
    var commit := CommitIo(false, true, false, true, true, true, true, true, 1 + |Lines(events)|, false, true, true);
    var rollback := RecoveryIo(false, true, true, true, true, true);
    err := f.Append(events, AppendIo(false, GuardIo(false, true, true), FINE_LOAD, commit, rollback));
    AllShown(f.disk[..f.committedOffset], events, f.disk[f.committedOffset..]);
    f.Restart();
    assert events[..|events|] == events;
  }

  // All of a batch shows when all of it has landed.
  lemma AllShown(d: bytes, es: seq<Event>, x: bytes)
    requires x == Separator(d) + Lines(es)
    ensures Shown(d, es, x) == |es|
  {
    hide Separator, Lines;
    AllSurvive(es);
  }

  lemma {:induction false} AllSurvive(es: seq<Event>)
    ensures Survivors(es, |Lines(es)|) == |es|
    decreases |es|
  {
    hide Record;
    if es != [] {
      AllSurvive(es[1..]);
    }
  }
}
