/** Two stores, in one process or in two, on one session file and one lock file
    (internal/sessionstore/file.go, internal/sessionstore/lock.go): when what
    one of them acknowledged is safe from the other. */
module SharedFile {
  import opened Basics
  import opened Schema
  import opened Events
  import opened Replay
  import opened FileStore
  import opened StoreRuns

  datatype SharedOp =
    | AppendTo(events: seq<Event>, append: AppendIo)
    | LoadFrom(load: LoadIo, guard: GuardIo)
    | CreateFor(snapshot: Snapshot, now: int, create: CreateIo)
    | DeleteIt(delete: DeleteIo)
    | TakeLease(lease: LeaseIo)
    | EndLease

  // The lock file is one: it cannot be had while the other store has it.
  function Locking(guard: GuardIo, free: bool): GuardIo {
    guard.(lock := guard.lock && free)
  }

  // Both stores are about the same file, and at most one holds the lease.
  ghost predicate Shared(x: SessionFile, y: SessionFile)
    reads x, y
  {
    && x != y && x.id == y.id
    && x.Valid() && y.Valid()
    && x.present == y.present && x.disk == y.disk
    && !(x.leased && y.leased)
  }

  // A pending rollback is protected by the lease under which it became due.
  ghost predicate Protected(x: SessionFile)
    reads x
  {
    x.needsRecovery ==> x.leased && !x.disturbed
  }

  ghost predicate Orderly(x: SessionFile, y: SessionFile)
    reads x, y
  {
    Shared(x, y) && Protected(x) && Protected(y)
  }

  // The lock has come free although `x` owes a rollback.
  ghost predicate Exposed(x: SessionFile, y: SessionFile)
    reads x, y
  {
    Shared(x, y) && x.needsRecovery && !x.disturbed && !x.leased && !y.leased && !y.needsRecovery
  }

  // What is stored: the file without what a pending rollback discards.
  ghost function Stored(x: SessionFile, y: SessionFile): Result<Snapshot, StoreError>
    reads x, y
  {
    if x.needsRecovery then x.Durable() else y.Durable()
  }

  // What an operation does to the stored session when its effect is kept.
  function After(before: Result<Snapshot, StoreError>, op: SharedOp, kept: bool): Result<Snapshot, StoreError> {
    if !kept then before
    else
      match op
      case AppendTo(events, _) => if before.Ok? then ApplyAll(before.value, events) else before
      case CreateFor(s, now, _) => ApplyAll(EMPTY, Creation(s, now))
      case DeleteIt(_) => Err(NotFound)
      case _ => before
  }

  // Operations of both stores; which store it was does not matter.
  function AfterAll(start: Result<Snapshot, StoreError>, ops: seq<(bool, SharedOp)>, kept: seq<bool>)
    : Result<Snapshot, StoreError>
    requires |ops| == |kept|
  {
    if ops == [] then start
    else
      var n := |ops| - 1;
      After(AfterAll(start, ops[..n], kept[..n]), ops[n].1, kept[n])
  }

  lemma AfterSnoc(start: Result<Snapshot, StoreError>, ops: seq<(bool, SharedOp)>, kept: seq<bool>, k: nat, keep: bool)
    requires |kept| == k < |ops|
    ensures AfterAll(start, ops[..k + 1], kept + [keep]) == After(AfterAll(start, ops[..k], kept), ops[k].1, keep)
  {
    hide After;
    assert ops[..k + 1][..k] == ops[..k] && (kept + [keep])[..k] == kept;
  }

  lemma AfterNothing(start: Result<Snapshot, StoreError>)
    ensures AfterAll(start, [], []) == start
  {
  }

  // The other store finds the file changed, if it was.
  method Notice(y: SessionFile, present: bool, disk: bytes)
    requires y.Valid()
    requires y.present != present || y.disk != disk ==> !y.leased && !y.needsRecovery
    modifies y
    ensures y.Valid() && y.present == present && y.disk == disk
    ensures y.leased == old(y.leased) && y.needsRecovery == old(y.needsRecovery)
    ensures y.needsRecovery ==> y.disturbed == old(y.disturbed) && y.Durable() == old(y.Durable())
  {
    if y.present != present || y.disk != disk {
      y.ExternalChange(present, disk);
    }
  }

  // One operation on `x` while `y` stands by. What was acknowledged is kept;
  // and either everything is in order still, or the lock came free over a
  // pending rollback.
  method Perform(x: SessionFile, y: SessionFile, op: SharedOp) returns (err: Option<StoreError>, ghost kept: bool)
    requires Orderly(x, y)
    requires op.CreateFor? ==> op.snapshot.metadata.id == x.id
    modifies x, y
    ensures Orderly(x, y) || Exposed(x, y)
    ensures Stored(x, y) == After(old(Stored(x, y)), op, kept)
    ensures Acknowledged(op, err) ==> kept
  {
    hide ReplayAll, ApplyAll, SnapshotOf, Creation, Lines, Tail, Shown, Separator, NeedsSeparator, AllEncodable, FineAppend,
         WrittenNotSynced, Acceptable, AfterCommitted, SessionFile.CommittedBytes, SessionFile.ShownOfFailed,
         SessionFile.Stores, SessionFile.Loads, Persisted, Created;
    ghost var before := Stored(x, y);
    match op {
      case AppendTo(events, io) =>
        if before.Ok? {
          ApplyNone(before.value);
        }
        err := x.Append(events, io.(guard := Locking(io.guard, !y.leased)));
      case LoadFrom(io, guard) =>
        var r := x.Load(io, Locking(guard, !y.leased));
        err := if r.Ok? then None else Some(r.error);
      case CreateFor(s, now, io) =>
        err := x.Create(s, now, io.(guard := Locking(io.guard, !y.leased)));
      case DeleteIt(io) =>
        err := x.Delete(io.(guard := Locking(io.guard, !y.leased)));
      case TakeLease(io) =>
        err := x.AcquireWriter(io.(lock := io.lock && !y.leased));
      case EndLease =>
        x.ReleaseWriter();
        err := None;
    }
    Notice(y, x.present, x.disk);
    kept := Stored(x, y) == After(before, op, true);
  }

  lemma StoredEitherWay(x: SessionFile, y: SessionFile)
    requires Orderly(x, y)
    ensures Orderly(y, x) && Stored(x, y) == Stored(y, x) && x.id == y.id
  {
    hide SnapshotOf, Tail;
  }

  // Everything is in order, or the lock is free over a rollback of one of them.
  lemma LockState(x: SessionFile, y: SessionFile)
    requires Orderly(x, y) || Exposed(x, y)
    ensures (x.needsRecovery && !x.leased) || (y.needsRecovery && !y.leased) <==> Exposed(x, y)
    ensures Orderly(x, y) <==> !Exposed(x, y)
    ensures Orderly(x, y) <==> Orderly(y, x)
    ensures !Exposed(y, x)
  {
    hide SnapshotOf, Tail, SessionFile.Valid;
  }

  predicate Acknowledged(op: SharedOp, err: Option<StoreError>) {
    err.None? && (op.AppendTo? || op.CreateFor? || op.DeleteIt?)
  }

  // Operations on either store, in any order, until one of them lets the lock
  // come free over a pending rollback. Up to then the stored session is exactly
  // what was kept, in order, and everything acknowledged was kept: no batch of
  // either store is lost to the other.
  method Run(a: SessionFile, b: SessionFile, ops: seq<(bool, SharedOp)>)
    returns (errs: seq<Option<StoreError>>, ghost kept: seq<bool>)
    requires Orderly(a, b)
    requires forall i :: 0 <= i < |ops| && ops[i].1.CreateFor? ==> ops[i].1.snapshot.metadata.id == a.id
    modifies a, b
    ensures |errs| == |kept| <= |ops|
    ensures forall i :: 0 <= i < |errs| && Acknowledged(ops[i].1, errs[i]) ==> kept[i]
    ensures (Orderly(a, b) && |errs| == |ops|) || Exposed(a, b) || Exposed(b, a)
    ensures Orderly(a, b) || Exposed(a, b) ==> Stored(a, b) == AfterAll(old(Stored(a, b)), ops[..|errs|], kept)
    ensures Exposed(b, a) ==> Stored(b, a) == AfterAll(old(Stored(a, b)), ops[..|errs|], kept)
  {
    hide After, AfterAll, Acknowledged, Shared, Stored, Orderly, Exposed, SnapshotOf, Tail, SessionFile.Valid, SessionFile.Durable;
    ghost var start := Stored(a, b);
    errs, kept := [], [];
    assert ops[..0] == [];
    AfterNothing(start);
    for k := 0 to |ops|
      invariant |errs| == |kept| == k
      invariant forall i :: 0 <= i < k && Acknowledged(ops[i].1, errs[i]) ==> kept[i]
      invariant Orderly(a, b) && Stored(a, b) == AfterAll(start, ops[..k], kept)
    {
      var err: Option<StoreError>;
      ghost var keep: bool;
      StoredEitherWay(a, b);
      if ops[k].0 {
        err, keep := Perform(a, b, ops[k].1);
        LockState(a, b);
      } else {
        err, keep := Perform(b, a, ops[k].1);
        LockState(b, a);
      }
      AfterSnoc(start, ops, kept, k, keep);
      errs, kept := errs + [err], kept + [keep];
      if (a.needsRecovery && !a.leased) || (b.needsRecovery && !b.leased) {
        return;
      }
      if !ops[k].0 {
        StoredEitherWay(b, a);
      }
    }
    assert ops[..|ops|] == ops;
    LockState(a, b);
  }

  const FREE_LOCK := GuardIo(false, true, true)

  function FineAppendIo(size: nat): AppendIo {
    AppendIo(false, FREE_LOCK, FINE_LOAD, CommitIo(false, true, false, true, true, true, true, true, size, true, true, true),
             FINE_RECOVERY)
  }

  // Where the lock came free over a pending rollback, nothing protects the next
  // batch of the other store: it is appended and acknowledged, and the first
  // load of the store with the rollback discards it. No call fails meanwhile.
  method AcknowledgedThenLost(x: SessionFile, y: SessionFile, m: Message, now: int)
    returns (appended: Option<StoreError>, loaded: Result<Snapshot, StoreError>, ghost acknowledged: Result<Snapshot, StoreError>)
    requires Exposed(x, y) && m.toolCalls == []
    modifies x, y
    ensures appended.None? && acknowledged.Ok? && |acknowledged.value.history| > 0
    ensures acknowledged.value.history[|acknowledged.value.history| - 1] == m
    ensures Orderly(x, y) && loaded == Stored(x, y) == old(Stored(x, y))
    // The acknowledged history is cut back: its last message, at least, is gone.
    ensures loaded.Ok? && loaded.value.history <= acknowledged.value.history
    ensures |loaded.value.history| < |acknowledged.value.history|
  {
    hide ReplayAll, ApplyAll, SnapshotOf, Lines, Tail, Shown, Separator, NeedsSeparator, Acceptable, AllEncodable;
    ghost var kept := x.disk[..x.committedOffset];
    x.FailedShows();
    x.CacheOfPrefix();
    var events := MessageEvents([m], now);
    CanAppend(x.snapshot, x.failed[..x.ShownOfFailed()], m, now);
    ApplyAllKeeps(x.snapshot, x.failed[..x.ShownOfFailed()]);
    appended := y.Append(events, FineAppendIo(1 + |Lines(events)|));
    acknowledged := y.Durable();
    assert kept <= y.disk && y.disk[..x.committedOffset] == kept;
    assert x.CacheMatches(kept);
    x.ExternalChange(y.present, y.disk);
    loaded := x.Load(FINE_LOAD, FREE_LOCK);
    Notice(y, x.present, x.disk);
  }

  lemma CanAppend(s: Snapshot, es: seq<Event>, m: Message, now: int)
    requires s.metadata.id != "" && ApplyAll(s, es).Ok? && m.toolCalls == []
    ensures Acceptable(ApplyAll(s, es), MessageEvents([m], now))
    ensures ApplyAll(ApplyAll(s, es).value, MessageEvents([m], now)).value.history == ApplyAll(s, es).value.history + [m]
  {
    hide ApplyAll;
    ApplyAllKeeps(s, es);
    ApplyMessages(ApplyAll(s, es).value, [m], now);
    assert MessageEvents([m], now) == [MessageEvent(m, now)];
  }

  // Two stores on a fresh session. A lease-less append of the first lands, its
  // sync fails, and its rollback cannot open the file: the lock is free again,
  // the rollback is owed, and nothing is stored. The second store then appends
  // a message, is told that it is stored, and the first one loads it away.
  method ExposedAndLost() returns (
      x: SessionFile, y: SessionFile, failed: Option<StoreError>, appended: Option<StoreError>,
      loaded: Result<Snapshot, StoreError>, ghost between: Result<Snapshot, StoreError>,
      ghost acknowledged: Result<Snapshot, StoreError>)
    ensures failed.Some? && between.Ok? && between.value.history == []
    ensures appended.None? && acknowledged.Ok? && |acknowledged.value.history| > 0
    ensures acknowledged.value.history[|acknowledged.value.history| - 1] == SAMPLE_MESSAGE
    ensures loaded.Ok? && loaded.value.history == [] && Orderly(x, y) && Stored(x, y) == loaded
  {
    x, y, failed := ReachExposed();
    between := Stored(x, y);
    appended, loaded, acknowledged := AcknowledgedThenLost(x, y, SAMPLE_MESSAGE, 0);
  }

  method ReachExposed() returns (x: SessionFile, y: SessionFile, failed: Option<StoreError>)
    ensures fresh(x) && fresh(y) && failed.Some?
    ensures Exposed(x, y) && Stored(x, y).Ok? && Stored(x, y).value.history == []
  {
    hide ReplayAll, ApplyAll, SnapshotOf, Creation, Lines, Tail, Shown, Separator, NeedsSeparator;
    CreatedFile(SAMPLE, 0);
    CreationRebuilds(SAMPLE, 0);
    var disk := Lines(Creation(SAMPLE, 0));
    x := new SessionFile("s", true, disk);
    y := new SessionFile("s", true, disk);
    ghost var before := x.Durable().value;
    var events := MessageEvents([SAMPLE_MESSAGE], 0);
    ApplyMessages(before, [SAMPLE_MESSAGE], 0);
    var commit := CommitIo(false, true, false, true, true, true, true, true, 1 + |Lines(events)|, false, true, true);
    var rollback := RecoveryIo(false, true, true, true, true, true);
    failed := x.Append(events, AppendIo(false, FREE_LOCK, FINE_LOAD, commit, rollback));
    Notice(y, x.present, x.disk);
  }
}
