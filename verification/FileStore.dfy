/** One session file and the state a store caches about it
    (internal/sessionstore/file.go). Every system call takes its outcome from a
    parameter, so a contract here speaks of every pattern of failures. */
module FileStore {
  import opened Basics
  import opened Events
  import opened Replay

  // Outcomes of the calls of `recoverFailedCommit`; true is success. `cut` says
  // whether a truncate that reports failure shortened the file all the same.
  datatype RecoveryIo = RecoveryIo(open: bool, truncate: bool, cut: bool, sync: bool, stat: bool, close: bool) {
    predicate Fine() {
      open && truncate && sync && stat && close
    }
  }

  // `canceled...` is the context at one of its checkpoints.
  datatype LoadIo = LoadIo(
    canceled: bool, recovery: RecoveryIo, stat: bool, canceledCached: bool, read: bool, canceledRead: bool,
    canceledReplay: bool)
  {
    predicate Fine() {
      !canceled && recovery.Fine() && stat && !canceledCached && read && !canceledRead && !canceledReplay
    }
  }

  // A write that reports failure, or a short count, still leaves its first
  // `landed` bytes in the file.
  datatype CommitIo = CommitIo(
    canceled: bool, open: bool, canceledOpen: bool, chmod: bool, truncate: bool, cut: bool, seek: bool, write: bool,
    landed: nat, sync: bool, stat: bool, close: bool)
  {
    predicate Started() {
      !canceledOpen && chmod
    }

    // The whole batch reaches the file.
    predicate Lands(size: nat) {
      !canceled && open && Started() && truncate && seek && landed >= size
    }

    // All calls that are made succeed; a file without a torn tail needs no
    // truncate.
    predicate Works(size: nat, torn: bool) {
      !canceled && open && Started() && (torn ==> truncate) && seek && landed >= size && write && sync && stat && close
    }

    predicate Fine(size: nat) {
      Lands(size) && write && sync && stat && close
    }
  }

  // Taking and giving back the file lock of an operation without a lease.
  datatype GuardIo = GuardIo(canceled: bool, lock: bool, release: bool) {
    predicate Fine() {
      !canceled && lock && release
    }
  }

  datatype LeaseIo = LeaseIo(canceled: bool, canceledLocked: bool, lock: bool, canceledHeld: bool) {
    predicate Fine() {
      !canceled && !canceledLocked && lock && !canceledHeld
    }
  }

  datatype AppendIo = AppendIo(canceled: bool, guard: GuardIo, load: LoadIo, commit: CommitIo, rollback: RecoveryIo)

  // `staged`: the temporary file was created, written whole, synced and closed.
  datatype CreateIo = CreateIo(
    canceled: bool, guard: GuardIo, canceledEncoded: bool, staged: bool, link: bool, syncDir: bool, stat: bool)
  {
    predicate Links() {
      !canceledEncoded && staged && link
    }

    predicate Fine() {
      !canceled && guard.Fine() && Links() && syncDir && stat
    }
  }

  datatype DeleteIo = DeleteIo(canceled: bool, guard: GuardIo, canceledLocked: bool, remove: bool, syncDir: bool)

  // The bytes of a file after `b` is written at `at`.
  function Overwrite(d: bytes, at: nat, b: bytes): bytes
    requires at <= |d|
  {
    d[..at] + b + (if at + |b| <= |d| then d[at + |b|..] else [])
  }

  // What a reader gets from a file: the snapshot, for the right session.
  function SnapshotOf(id: string, d: bytes): Result<Snapshot, StoreError> {
    var (s, n) :- ReplayAll(d);
    if s.metadata.id != id then Err(Corrupted) else Ok(s)
  }

  lemma TruncatedSnapshot(id: string, d: bytes)
    requires ReplayAll(d).Ok?
    ensures var (s, n) := ReplayAll(d).value;
            ReplayAll(d[..n]) == Ok((s, n)) && SnapshotOf(id, d[..n]) == SnapshotOf(id, d)
  {
    hide ReplayFrom;
    TruncateToOffset(EMPTY, d);
  }

  // How many records of a batch a reader sees when `x` follows the committed
  // bytes `d`: a part of what was being appended, or the torn tail from before.
  function Shown(d: bytes, es: seq<Event>, x: bytes): (j: nat)
    ensures j <= |es|
  {
    if x <= Separator(d) + Lines(es) && |Separator(d)| <= |x| then Survivors(es, |x| - |Separator(d)|) else 0
  }

  // The first record shows as soon as it has landed whole, with the separator.
  lemma ShownExactly(d: bytes, es: seq<Event>, x: bytes)
    requires es != []
    ensures Shown(d, es, x) > 0 <==>
            x <= Separator(d) + Lines(es) && |Separator(d)| + |Record(es[0])| <= |x|
  {
    hide Separator, Lines, Record;
  }

  // What follows the committed bytes while a rollback is pending.
  predicate Tail(d: bytes, s: Snapshot, es: seq<Event>, x: bytes) {
    x <= Separator(d) + Lines(es) || ReplayAll(d + x) == Ok((s, |d|))
  }

  // What a write sequence that stopped somewhere leaves behind the committed bytes.
  lemma TailAfterWrite(d: bytes, s: Snapshot, es: seq<Event>, before: bytes, after: bytes)
    requires d <= before && ReplayAll(before) == Ok((s, |d|))
    requires var encoded := Separator(d) + Lines(es);
             after == before || after == d || exists n :: 0 <= n <= |encoded| && after == d + encoded[..n]
    ensures d <= after && Tail(d, s, es, after[|d|..])
  {
    hide ReplayAll, Separator, Lines;
    var encoded := Separator(d) + Lines(es);
    if after == before {
      assert d + before[|d|..] == before;
    } else if after == d {
      assert d[|d|..] == [];
    } else {
      var n :| 0 <= n <= |encoded| && after == d + encoded[..n];
      assert after[|d|..] == encoded[..n];
    }
  }

  // What an interrupted append leaves behind is the old snapshot plus exactly
  // the records that landed, and replay ends no earlier than before.
  lemma InterruptedAppend(id: string, d: bytes, s: Snapshot, es: seq<Event>, x: bytes)
    requires ReplayAll(d) == Ok((s, |d|))
    requires s.metadata.id == id
    requires ApplyAll(s, es).Ok?
    requires Tail(d, s, es, x)
    ensures ApplyAll(s, es[..Shown(d, es, x)]).Ok?
    ensures SnapshotOf(id, d + x) == ApplyAll(s, es[..Shown(d, es, x)])
    ensures ReplayAll(d + x).Ok? && ReplayAll(d + x).value.1 >= |d|
  {
    hide ReplayAll, Separator, Lines, ApplyAll, Survivors;
    if x <= Separator(d) + Lines(es) {
      CrashedAppend(d, s, es, |x|);
      var j := Shown(d, es, x);
      assert (Separator(d) + Lines(es))[..|x|] == x;
      ApplyAllKeeps(s, es[..j]);
    } else {
      ApplyNothing(s, es);
    }
  }

  // A batch that begins with a message changes the session once it shows.
  lemma MessageShows(s: Snapshot, es: seq<Event>, j: nat)
    requires 0 < j <= |es| && es[0].kind == MESSAGE && s.metadata.id != ""
    requires ApplyAll(s, es[..j]).Ok?
    ensures |ApplyAll(s, es[..j]).value.history| > |s.history|
  {
    hide ApplyAll;
    var t := Apply(s, es[0]);
    ApplyFirst(s, es[..j]);
    ApplyAllKeeps(t.value, es[..j][1..]);
  }

  lemma ApplyFirst(s: Snapshot, es: seq<Event>)
    requires es != [] && ApplyAll(s, es).Ok?
    ensures Apply(s, es[0]).Ok? && ApplyAll(Apply(s, es[0]).value, es[1..]) == ApplyAll(s, es)
  {
    hide Apply;
  }

  lemma SeparatorAt(d: bytes, n: nat)
    requires n <= |d|
    ensures NeedsSeparator(d[..n]) <==> n > 0 && d[n - 1] != NL
  {
  }

  // The batch lands, the sync fails, and the rollback cannot open the file.
  predicate WrittenNotSynced(io: CommitIo, rollback: RecoveryIo, size: nat) {
    io.Lands(size) && !io.sync && !rollback.open
  }

  predicate FineAppend(io: AppendIo, events: seq<Event>) {
    io.load.Fine() && io.commit.Fine(1 + |Lines(events)|)
  }

  // A batch the store has no reason of its own to refuse.
  predicate Acceptable(before: Result<Snapshot, StoreError>, events: seq<Event>) {
    before.Ok? && ApplyAll(before.value, events).Ok? && AllEncodable(events)
  }

  function AfterCommitted(d: bytes, events: seq<Event>): bytes {
    d + (Separator(d) + Lines(events))
  }

  lemma EncodedForm(d: bytes, separate: bool, lines: bytes)
    requires separate == NeedsSeparator(d)
    ensures (if separate then [NL] + lines else lines) == Separator(d) + lines
    ensures |Separator(d)| <= 1
  {
  }

  // The loop that prepares the candidate snapshot.
  method ApplyEvents(s: Snapshot, events: seq<Event>) returns (r: Result<Snapshot, StoreError>)
    ensures r == ApplyAll(s, events)
  {
    hide Apply;
    var next := s;
    for i := 0 to |events|
      invariant ApplyAll(s, events) == ApplyAll(next, events[i..])
    {
      assert events[i..][0] == events[i] && events[i..][1..] == events[i + 1..];
      var t := Apply(next, events[i]);
      if t.Err? {
        return Err(t.error);
      }
      next := t.value;
    }
    return Ok(next);
  }

  lemma {:induction false} LinesEnd(es: seq<Event>)
    requires es != []
    ensures Lines(es) != [] && Lines(es)[|Lines(es)| - 1] == NL
  {
    hide Record;
    if es[1..] != [] {
      LinesEnd(es[1..]);
    }
  }

  lemma CommittedFile(id: string, d: bytes, s: Snapshot, es: seq<Event>, next: Snapshot)
    requires ReplayAll(d) == Ok((s, |d|))
    requires s.metadata.id == id
    requires es != [] && ApplyAll(s, es) == Ok(next)
    ensures var after := d + (Separator(d) + Lines(es));
            && ReplayAll(after) == Ok((next, |after|))
            && next.metadata.id == id
            && !NeedsSeparator(after)
            && SnapshotOf(id, after) == Ok(next)
  {
    hide ReplayAll, Separator, Lines, ApplyAll;
    AppendCommits(d, s, es);
    ApplyAllKeeps(s, es);
    LinesEnd(es);
    assert d + (Separator(d) + Lines(es)) == d + Separator(d) + Lines(es);
  }

  lemma CreatedFile(s: Snapshot, now: int)
    requires s.metadata.id != ""
    ensures var next, d := ApplyAll(EMPTY, Creation(s, now)), Lines(Creation(s, now));
            && next.Ok? && next.value.metadata.id == s.metadata.id
            && ReplayAll(d) == Ok((next.value, |d|))
            && !NeedsSeparator(d)
            && SnapshotOf(s.metadata.id, d) == next
  {
    hide ReplayFrom, Lines, ApplyAll;
    CreationRebuilds(s, now);
    ReplayLines(EMPTY, Creation(s, now));
    LinesEnd(Creation(s, now));
  }

  // The file was opened, written whole, synced, looked at and closed.
  predicate Persisted(io: CommitIo, size: nat) {
    io.open && io.chmod && io.seek && io.write && io.landed >= size && io.sync && io.stat && io.close
  }

  lemma WorksIsPersisted(io: CommitIo, size: nat, torn: bool)
    requires io.Works(size, torn)
    ensures Persisted(io, size) && !io.canceled && !io.canceledOpen && (torn ==> io.truncate)
  {
  }

  // A commit that does not get to writing neither works nor lands.
  lemma EarlyEnd(io: CommitIo, size: nat, torn: bool)
    ensures io.canceled || !io.open || !io.Started() ==> !io.Works(size, torn) && !io.Lands(size)
  {
  }

  class SessionFile {
    const id: string

    // The file as other readers see it.
    var present: bool
    var disk: bytes

    // The cached state (`fileSessionState`). `infoCurrent` says that the cached
    // file information still describes the file.
    var loaded: bool
    var snapshot: Snapshot
    var committedOffset: nat
    var fileSize: nat
    var infoCurrent: bool
    var needsSeparator: bool
    var needsRecovery: bool
    var leased: bool

    // The batch whose commit failed last, and whether another process changed
    // the file before it was rolled back.
    ghost var failed: seq<Event>
    ghost var disturbed: bool

    ghost predicate CacheMatches(d: bytes)
      reads this
    {
      && ReplayAll(d) == Ok((snapshot, committedOffset))
      && snapshot.metadata.id == id
      && needsSeparator == NeedsSeparator(d[..committedOffset])
    }

    ghost predicate Valid()
      reads this
    {
      && (needsRecovery ==>
            && loaded && present && committedOffset <= |disk|
            && CacheMatches(disk[..committedOffset])
            && failed != [] && ApplyAll(snapshot, failed).Ok?
            && (!disturbed ==> Tail(disk[..committedOffset], snapshot, failed, disk[committedOffset..])))
      && (!needsRecovery && loaded && infoCurrent && present ==> fileSize == |disk| && CacheMatches(disk))
    }

    // The bytes that count: a pending rollback discards what lies beyond.
    ghost function DurableBytes(): bytes
      reads this
    {
      if needsRecovery && committedOffset <= |disk| then disk[..committedOffset] else disk
    }

    // The complete records of the file, without what a rollback discards or
    // the next append cuts off.
    ghost function CommittedBytes(): bytes
      reads this
    {
      var r := ReplayAll(DurableBytes());
      if r.Ok? then DurableBytes()[..r.value.1] else DurableBytes()
    }

    // The session as stored.
    ghost function Durable(): Result<Snapshot, StoreError>
      reads this
    {
      if present then SnapshotOf(id, DurableBytes()) else Err(NotFound)
    }

    // The file holds, in complete records and nothing else, what was stored
    // `before` followed by the whole batch.
    ghost predicate Appended(before: Result<Snapshot, StoreError>, events: seq<Event>)
      reads this
    {
      && before.Ok? && Durable().Ok? && !needsRecovery
      && Durable() == ApplyAll(before.value, events)
      && ReplayAll(disk) == Ok((Durable().value, |disk|))
    }

    constructor (id: string, present: bool, disk: bytes)
      ensures Valid()
      ensures this.id == id && this.present == present && this.disk == disk && !leased && !needsRecovery
    {
      this.id := id;
      this.present := present;
      this.disk := disk;
      loaded := false;
      snapshot := EMPTY;
      committedOffset := 0;
      fileSize := 0;
      infoCurrent := false;
      needsSeparator := false;
      needsRecovery := false;
      leased := false;
      failed := [];
      disturbed := false;
    }

    lemma CacheIsDurable()
      requires present && !needsRecovery && CacheMatches(disk)
      ensures Durable() == Ok(snapshot)
    {
    }

    method RecoverFailedCommit(io: RecoveryIo) returns (ok: bool)
      requires Valid()
      requires needsRecovery
      modifies this`disk, this`fileSize, this`infoCurrent, this`needsRecovery
      ensures Valid()
      ensures ok == io.Fine()
      ensures needsRecovery == !ok
      ensures ok ==> infoCurrent && disk == old(DurableBytes())
      ensures !io.open ==> disk == old(disk)
      ensures DurableBytes() == old(DurableBytes())
    {
      hide ReplayAll, ApplyAll, Lines, NeedsSeparator;
      if !io.open {
        return false;
      }
      ghost var kept := disk[..committedOffset];
      if io.truncate || io.cut {
        TruncatedSnapshot(id, kept);
        assert kept[..committedOffset] == kept;
        disk := disk[..committedOffset];
      }
      if !(io.truncate && io.sync && io.stat && io.close) {
        return false;
      }
      fileSize := committedOffset;
      infoCurrent := true;
      needsRecovery := false;
      return true;
    }

    // The second half of `ensureLoaded`: read the file and replay it.
    method Reload(io: LoadIo) returns (err: Option<StoreError>)
      requires Valid() && present && !needsRecovery
      modifies this`fileSize, this`infoCurrent, this`loaded, this`snapshot, this`committedOffset, this`needsSeparator
      ensures Valid()
      ensures err.None? ==> loaded && CacheMatches(disk) && fileSize == |disk| && Durable() == Ok(snapshot)
      ensures err.None? <==> io.read && !io.canceledRead && Durable().Ok? && !io.canceledReplay
      ensures io.Fine() ==> err == if Durable().Ok? then None else Some(Durable().error)
    {
      hide ReplayAll;
      loaded := false;
      if !io.read {
        return Some(IoFailed);
      }
      if io.canceledRead {
        return Some(Canceled);
      }
      var r := ReplayFile(disk);
      if r.Err? {
        return Some(r.error);
      }
      var (s, n) := r.value;
      if s.metadata.id != id {
        return Some(Corrupted);
      }
      if io.canceledReplay {
        return Some(Canceled);
      }
      snapshot := s;
      committedOffset := n;
      fileSize := |disk|;
      infoCurrent := true;
      needsSeparator := n > 0 && disk[n - 1] != NL;
      loaded := true;
      SeparatorAt(disk, n);
      return None;
    }

    // Every call that loading makes succeeds: what it reads of the file depends
    // on what is cached.
    ghost predicate Loads(io: LoadIo, reread: bool)
      reads this
    {
      && !io.canceled && (needsRecovery ==> io.recovery.Fine())
      && present && io.stat
      && (if !reread && loaded && (needsRecovery || (infoCurrent && fileSize == |disk|)) then !io.canceledCached
          else io.read && !io.canceledRead && Durable().Ok? && !io.canceledReplay)
    }

    method EnsureLoaded(io: LoadIo, reread: bool) returns (err: Option<StoreError>)
      requires Valid()
      modifies this`disk, this`fileSize, this`infoCurrent, this`needsRecovery, this`loaded, this`snapshot,
               this`committedOffset, this`needsSeparator
      ensures Valid()
      ensures DurableBytes() == old(DurableBytes())
      ensures !old(needsRecovery) ==> disk == old(disk) && !needsRecovery
      ensures err.None? ==> loaded && present && !needsRecovery && CacheMatches(disk) && fileSize == |disk|
      ensures err.None? ==> Durable() == Ok(snapshot)
      ensures err.None? <==> old(Loads(io, reread))
      ensures io.Fine() && old(Durable()).Ok? ==> err.None?
      ensures io.Fine() && old(Durable()).Err? ==> err == Some(old(Durable()).error)
    {
      hide ReplayAll, ApplyAll, Lines, Separator, CacheMatches;
      if io.canceled {
        return Some(Canceled);
      }
      if needsRecovery {
        var ok := RecoverFailedCommit(io.recovery);
        if !ok {
          return Some(IoFailed);
        }
      }
      if !present {
        loaded := false;
        return Some(NotFound);
      }
      if !io.stat {
        loaded := false;
        return Some(IoFailed);
      }
      if !reread && loaded && infoCurrent && fileSize == |disk| {
        CacheIsDurable();
        return if io.canceledCached then Some(Canceled) else None;
      }
      err := Reload(io);
    }

    // Truncate, seek, write, sync, stat, close: the batch is in the file, or
    // the file is as it was, or a part of the batch follows the committed bytes.
    method WriteBatch(encoded: bytes, io: CommitIo) returns (ok: bool)
      requires committedOffset <= |disk| && fileSize == |disk|
      modifies this`disk
      ensures ok ==> disk == old(disk)[..committedOffset] + encoded
      ensures !ok ==>
                || disk == old(disk)
                || (|| disk == old(disk)[..committedOffset]
                    || exists n :: 0 <= n <= |encoded| && disk == old(disk)[..committedOffset] + encoded[..n])
      ensures !io.canceled && io.open && io.Started() ==> (ok <==> io.Works(|encoded|, fileSize != committedOffset))
      ensures io.Lands(|encoded|) ==> disk == old(disk)[..committedOffset] + encoded
      ensures !io.sync ==> !ok
    {
      if fileSize != committedOffset {
        if io.truncate || io.cut {
          disk := disk[..committedOffset];
        }
        if !io.truncate {
          return false;
        }
      }
      assert disk == old(disk)[..committedOffset];
      if !io.seek {
        return false;
      }
      var n := Min(io.landed, |encoded|);
      disk := Overwrite(disk, committedOffset, encoded[..n]);
      assert disk == old(disk)[..committedOffset] + encoded[..n];
      return io.write && n == |encoded| && io.sync && io.stat && io.close;
    }

    // The file while a commit of the batch has stopped somewhere on its way.
    ghost predicate BrokenOff(events: seq<Event>)
      reads this
    {
      && loaded && present && committedOffset <= |disk| && CacheMatches(disk[..committedOffset])
      && events != [] && ApplyAll(snapshot, events).Ok?
      && Tail(disk[..committedOffset], snapshot, events, disk[committedOffset..])
    }

    // A commit that failed after its first change is rolled back, now or later.
    method FailCommit(events: seq<Event>, rollback: RecoveryIo)
      requires BrokenOff(events)
      modifies this`disk, this`fileSize, this`infoCurrent, this`needsRecovery, this`failed, this`disturbed
      ensures Valid()
      ensures needsRecovery == !rollback.Fine() && failed == events && !disturbed
      ensures committedOffset <= |disk| && DurableBytes() == old(disk[..committedOffset])
      ensures !rollback.open ==> disk == old(disk)
    {
      hide ReplayAll, ApplyAll, Lines, Separator, NeedsSeparator, SnapshotOf, Tail;
      needsRecovery := true;
      failed, disturbed := events, false;
      var rolledBack := RecoverFailedCommit(rollback);
      assert rolledBack ==> disk == old(disk[..committedOffset]);
    }

    // The commit proper: nothing is published before the file is written,
    // synced and closed. Any failure after the first change rolls back.
    method Commit(events: seq<Event>, encoded: bytes, next: Snapshot, io: CommitIo, rollback: RecoveryIo)
      returns (err: Option<StoreError>)
      requires Valid()
      requires loaded && present && !needsRecovery && CacheMatches(disk) && fileSize == |disk|
      requires events != [] && ApplyAll(snapshot, events) == Ok(next)
      requires encoded == Separator(disk[..committedOffset]) + Lines(events)
      modifies this`disk, this`fileSize, this`infoCurrent, this`needsRecovery, this`snapshot, this`committedOffset,
               this`needsSeparator, this`failed, this`disturbed
      ensures Valid()
      ensures err.None? <==> io.Works(|encoded|, old(fileSize != committedOffset))
      ensures err.None? ==> Persisted(io, |encoded|)
      ensures err.None? ==> !needsRecovery && snapshot == next && Durable() == Ok(next)
      ensures err.None? ==> disk == old(disk[..committedOffset]) + encoded
      ensures err.None? ==> ReplayAll(disk) == Ok((next, |disk|))
      ensures err.Some? ==> snapshot == old(snapshot) && committedOffset == old(committedOffset)
      ensures err.Some? ==> Durable() == old(Durable())
      ensures err.Some? && rollback.Fine() ==> !needsRecovery
      ensures needsRecovery ==> failed == events && !disturbed
      ensures WrittenNotSynced(io, rollback, |encoded|) ==>
                err.Some? && needsRecovery && disk == old(disk[..committedOffset]) + encoded
    {
      hide ReplayAll, ApplyAll, Lines, Separator, NeedsSeparator, SnapshotOf, Tail, BrokenOff, CommitIo.Works, CommitIo.Lands,
           CommitIo.Started;
      ghost var d := disk[..committedOffset];
      ghost var torn := fileSize != committedOffset;
      EarlyEnd(io, |encoded|, torn);
      TruncatedSnapshot(id, disk);
      CacheIsDurable();
      assert d[..committedOffset] == d;
      if io.canceled {
        return Some(Canceled);
      }
      if !io.open {
        return Some(IoFailed);
      }
      if !io.Started() {
        return Some(if io.canceledOpen then Canceled else IoFailed);
      }
      var ok := WriteBatch(encoded, io);
      if !ok {
        BreaksOff(events, d, old(disk));
        FailCommit(events, rollback);
        return Some(IoFailed);
      }
      WorksIsPersisted(io, |encoded|, torn);
      Publish(events, encoded, next, d);
      return None;
    }

    // The disk commit succeeded; only now the candidate becomes the snapshot.
    method Publish(events: seq<Event>, encoded: bytes, next: Snapshot, ghost d: bytes)
      requires loaded && present && !needsRecovery && |d| == committedOffset
      requires ReplayAll(d) == Ok((snapshot, |d|)) && snapshot.metadata.id == id
      requires events != [] && ApplyAll(snapshot, events) == Ok(next)
      requires encoded == Separator(d) + Lines(events) && disk == d + encoded
      modifies this`snapshot, this`committedOffset, this`fileSize, this`infoCurrent, this`needsSeparator
      ensures Valid() && snapshot == next && Durable() == Ok(next) && ReplayAll(disk) == Ok((next, |disk|))
    {
      hide ReplayAll, ApplyAll, Lines, Separator, NeedsSeparator, SnapshotOf, Tail;
      CommittedFile(id, d, snapshot, events, next);
      assert disk[..|disk|] == disk;
      snapshot := next;
      committedOffset := committedOffset + |encoded|;
      fileSize := committedOffset;
      infoCurrent := true;
      needsSeparator := false;
    }

    lemma BreaksOff(events: seq<Event>, d: bytes, before: bytes)
      requires loaded && present && |d| == committedOffset && d <= before && CacheMatches(d)
      requires ReplayAll(before) == Ok((snapshot, |d|))
      requires events != [] && ApplyAll(snapshot, events).Ok?
      requires var encoded := Separator(d) + Lines(events);
               disk == before || disk == d || exists n :: 0 <= n <= |encoded| && disk == d + encoded[..n]
      ensures BrokenOff(events) && disk[..committedOffset] == d
    {
      hide ReplayAll, ApplyAll, Lines, Separator, NeedsSeparator, Tail;
      TailAfterWrite(d, snapshot, events, before, disk);
      assert disk[..|d|] == d;
    }

    // Outcome of the deferred release of the operation's own file lock.
    method Released(err: Option<StoreError>, guard: GuardIo) returns (joined: Option<StoreError>)
      ensures joined == if err.None? && !leased && !guard.release then Some(IoFailed) else err
    {
      if leased || guard.release {
        return err;
      }
      return if err.Some? then err else Some(IoFailed);
    }

    // `mutationGuard`: nothing to take when the store holds the writer lease.
    method MutationGuard(guard: GuardIo) returns (err: Option<StoreError>)
      ensures err.None? <==> !guard.canceled && (leased || guard.lock)
    {
      if guard.canceled {
        return Some(Canceled);
      }
      return if leased || guard.lock then None else Some(InUse);
    }

    // A batch is stored exactly when the session loads, the batch can be applied
    // and encoded, and every call of the commit succeeds.
    ghost predicate Stores(io: AppendIo, events: seq<Event>)
      reads this
    {
      && Loads(io.load, false)
      && (events != [] ==>
            && Acceptable(Durable(), events)
            && io.commit.Works(|Separator(CommittedBytes()) + Lines(events)|, CommittedBytes() != DurableBytes()))
    }

    method AppendLocked(events: seq<Event>, io: AppendIo) returns (err: Option<StoreError>)
      requires Valid()
      modifies this
      ensures Valid() && leased == old(leased) && present == old(present)
      ensures err.None? && events != [] ==> Appended(old(Durable()), events)
      ensures err.Some? || events == [] ==> Durable() == old(Durable())
      ensures err.None? ==> Durable().Ok?
      ensures err.None? <==> old(Stores(io, events))
      ensures err.None? && events != [] ==> Persisted(io.commit, |Lines(events)|)
      ensures FineAppend(io, events) && Acceptable(old(Durable()), events) ==> err.None?
      ensures err.None? && events != [] ==> disk == AfterCommitted(old(CommittedBytes()), events)
      ensures needsRecovery ==>
                (failed == events && !disturbed) || (old(needsRecovery) && failed == old(failed) && disturbed == old(disturbed))
      ensures io.load.Fine() && WrittenNotSynced(io.commit, io.rollback, 1 + |Lines(events)|)
              && Acceptable(old(Durable()), events) && events != [] ==>
                err.Some? && needsRecovery && failed == events && !disturbed && committedOffset <= |disk|
                && disk == AfterCommitted(disk[..committedOffset], events)
    {
      hide ReplayAll, ApplyAll, Lines, Separator, NeedsSeparator, AllEncodable, SnapshotOf, Tail;
      err := EnsureLoaded(io.load, false);
      if err.Some? || events == [] {
        return;
      }
      var applied := ApplyEvents(snapshot, events);
      if applied.Err? {
        return Some(applied.error);
      }
      var lines := Encode(events);
      if lines.Err? {
        return Some(lines.error);
      }
      var encoded := lines.value;
      if needsSeparator {
        encoded := [NL] + encoded;
      }
      EncodedForm(disk[..committedOffset], needsSeparator, lines.value);
      err := Commit(events, encoded, applied.value, io.commit, io.rollback);
    }

    method Append(events: seq<Event>, io: AppendIo) returns (err: Option<StoreError>)
      requires Valid()
      modifies this
      ensures Valid() && leased == old(leased) && present == old(present)
      // The batch is stored exactly when the lock is to be had and it stores; and
      // that is reported exactly when the lock, if taken, can be given back.
      ensures var stored := !io.canceled && !io.guard.canceled && (leased || io.guard.lock) && old(Stores(io, events));
              && (err.None? <==> stored && (leased || io.guard.release))
              && (stored && events != [] ==> Appended(old(Durable()), events))
              && (!stored ==> Durable() == old(Durable()))
      // Nothing is reported as stored before it was written, synced and closed.
      ensures err.None? && events != [] ==> Persisted(io.commit, |Lines(events)|)
      // Success: the whole batch is durable, on top of what was durable.
      ensures err.None? && events != [] ==> Appended(old(Durable()), events)
      ensures err.None? ==> Durable().Ok?
      // Failure: nothing of the batch is durable, except when the lock taken
      // by a caller without a lease could not be given back.
      ensures events == [] || (err.Some? && (leased || io.guard.release)) ==> Durable() == old(Durable())
      ensures !leased && !io.guard.release ==> err.Some?
      // With every call succeeding, only the batch itself can be refused.
      ensures !io.canceled && io.guard.Fine() && FineAppend(io, events) && Acceptable(old(Durable()), events)
              ==> err.None?
      // A failing release is reported although the batch is durable.
      ensures !io.canceled && !io.guard.canceled && io.guard.lock && FineAppend(io, events)
              && Acceptable(old(Durable()), events) && events != []
              ==> Appended(old(Durable()), events)
      // Either all of the batch is durable, or nothing of it.
      ensures Durable() == old(Durable()) || Appended(old(Durable()), events)
      ensures err.None? && events != [] ==> disk == AfterCommitted(old(CommittedBytes()), events)
      // Without a lease or the lock nothing happens.
      ensures !leased && (io.guard.canceled || !io.guard.lock) ==> err.Some? && disk == old(disk) && needsRecovery == old(needsRecovery)
      ensures needsRecovery ==>
                (failed == events && !disturbed) || (old(needsRecovery) && failed == old(failed) && disturbed == old(disturbed))
      // The case in which the whole batch lands, and its rollback stays pending.
      ensures !io.canceled && !io.guard.canceled && (leased || io.guard.lock) && io.load.Fine()
              && WrittenNotSynced(io.commit, io.rollback, 1 + |Lines(events)|)
              && Acceptable(old(Durable()), events) && events != [] ==>
                err.Some? && needsRecovery && failed == events && !disturbed && committedOffset <= |disk|
                && disk == AfterCommitted(disk[..committedOffset], events)
    {
      hide ReplayAll, ApplyAll, Lines, Separator, NeedsSeparator, AllEncodable, SnapshotOf, Durable, FineAppend, Valid, Appended, Acceptable, CommittedBytes,
           AfterCommitted, WrittenNotSynced, Stores, Persisted;
      if io.canceled {
        return Some(Canceled);
      }
      err := MutationGuard(io.guard);
      if err.Some? {
        return;
      }
      err := AppendLocked(events, io);
      err := Released(err, io.guard);
    }

    method Load(io: LoadIo, guard: GuardIo) returns (r: Result<Snapshot, StoreError>)
      requires Valid()
      modifies this
      ensures Valid() && leased == old(leased) && present == old(present)
      ensures DurableBytes() == old(DurableBytes()) && Durable() == old(Durable())
      ensures r.Ok? ==> Durable() == r && !needsRecovery && disk == old(DurableBytes())
      ensures !old(needsRecovery) ==> disk == old(disk) && !needsRecovery
      ensures needsRecovery ==> disturbed == old(disturbed)
      ensures !io.canceled && guard.Fine() && io.Fine() ==> r == old(Durable())
    {
      hide ReplayAll, ApplyAll, Lines, Separator, NeedsSeparator, SnapshotOf, Valid, CacheMatches;
      if io.canceled {
        return Err(Canceled);
      }
      var guarded := needsRecovery;
      if guarded {
        var refused := MutationGuard(guard);
        if refused.Some? {
          return Err(refused.value);
        }
      }
      var err := EnsureLoaded(io, !leased);
      if guarded {
        err := Released(err, guard);
      }
      return if err.Some? then Err(err.value) else Ok(snapshot);
    }

    // `Create` publishes a complete file by linking it into place. A failure
    // after the link is reported although the session now exists.
    method Create(s: Snapshot, now: int, io: CreateIo) returns (err: Option<StoreError>)
      requires Valid()
      requires s.metadata.id == id
      modifies this
      ensures Valid() && leased == old(leased)
      ensures err.None? ==> loaded && id != ""
      ensures !old(present) && present ==>
                && ApplyAll(EMPTY, Creation(s, now)).Ok?
                && Durable() == ApplyAll(EMPTY, Creation(s, now)) == Ok(Created(s, now))
      ensures present == old(present) ==>
                err.Some? && Durable() == old(Durable()) && disk == old(disk) && needsRecovery == old(needsRecovery)
                && disturbed == old(disturbed)
      ensures present != old(present) ==> !needsRecovery
      ensures old(present) ==> present
      // The session is published exactly when everything up to the link works ...
      ensures !old(present) ==>
                (present <==> !io.canceled && id != "" && !io.guard.canceled && (leased || io.guard.lock)
                              && io.Links() && AllEncodable(Creation(s, now)))
      // ... and without an error exactly when what follows the link works too.
      ensures err.None? <==> !old(present) && present && io.syncDir && io.stat && (leased || io.guard.release)
      ensures !old(present) && present ==> io.staged && io.link
    {
      hide ReplayAll, ApplyAll, Lines, Separator, NeedsSeparator, SnapshotOf, AllEncodable, Creation;
      if io.canceled {
        return Some(Canceled);
      }
      if s.metadata.id == "" {
        return Some(IdRequired);
      }
      err := MutationGuard(io.guard);
      if err.Some? {
        return;
      }
      err := CreateLocked(s, now, io);
      err := Released(err, io.guard);
    }

    method CreateLocked(s: Snapshot, now: int, io: CreateIo) returns (err: Option<StoreError>)
      requires Valid()
      requires s.metadata.id == id && id != ""
      modifies this
      ensures Valid() && leased == old(leased)
      ensures err.None? ==> loaded
      ensures !old(present) && present ==>
                && ApplyAll(EMPTY, Creation(s, now)).Ok?
                && Durable() == ApplyAll(EMPTY, Creation(s, now)) == Ok(Created(s, now))
      ensures present == old(present) ==>
                Durable() == old(Durable()) && disk == old(disk) && needsRecovery == old(needsRecovery)
                && disturbed == old(disturbed)
      ensures present != old(present) ==> !needsRecovery
      ensures old(present) ==> present
      ensures !old(present) ==> (present <==> io.Links() && AllEncodable(Creation(s, now)))
      ensures err.None? <==> !old(present) && present && io.syncDir && io.stat
    {
      hide ReplayAll, ApplyAll, Lines, Separator, NeedsSeparator, SnapshotOf, AllEncodable, Creation;
      var events := Creation(s, now);
      CreationRebuilds(s, now);
      var applied := ApplyEvents(EMPTY, events);
      if applied.Err? {
        return Some(Corrupted);
      }
      var lines := Encode(events);
      if lines.Err? {
        return Some(lines.error);
      }
      if io.canceledEncoded {
        return Some(Canceled);
      }
      if !io.staged {
        return Some(IoFailed);
      }
      if present {
        return Some(Exists);
      }
      if !io.link {
        return Some(IoFailed);
      }
      CreatedFile(s, now);
      present := true;
      disk := lines.value;
      infoCurrent := false;
      if !io.syncDir || !io.stat {
        return Some(IoFailed);
      }
      assert disk[..|disk|] == disk;
      snapshot := applied.value;
      committedOffset := |disk|;
      fileSize := |disk|;
      infoCurrent := true;
      needsSeparator := false;
      needsRecovery := false;
      loaded := true;
      return None;
    }

    // Not even this store's own lease holder may delete its session.
    method Delete(io: DeleteIo) returns (err: Option<StoreError>)
      requires Valid()
      modifies this
      ensures Valid() && leased == old(leased)
      ensures leased ==> err.Some? && present == old(present) && Durable() == old(Durable())
      // The file is removed exactly when there is one, nobody cancels, the lock is
      // to be had and the removal works, and without an error exactly when the
      // sync and the release work too.
      ensures old(present) ==>
                (!present <==> !io.canceled && !leased && !io.guard.canceled && io.guard.lock && !io.canceledLocked && io.remove)
      ensures err.None? <==> old(present) && !present && io.syncDir && io.guard.release
      ensures present ==> Durable() == old(Durable())
      ensures err.None? ==> !present && !needsRecovery
      ensures !old(present) ==> !present
      ensures disk == old(disk)
      ensures present == old(present) ==> needsRecovery == old(needsRecovery) && disturbed == old(disturbed)
      ensures present != old(present) ==> !needsRecovery && !leased && !io.guard.canceled && io.guard.lock
    {
      hide ReplayAll, ApplyAll, Lines, Separator, NeedsSeparator, SnapshotOf;
      if io.canceled {
        return Some(Canceled);
      }
      if leased {
        return Some(InUse);
      }
      err := MutationGuard(io.guard);
      if err.Some? {
        return;
      }
      if io.canceledLocked {
        err := Some(Canceled);
      } else if !present {
        err := Some(NotFound);
      } else if !io.remove {
        err := Some(IoFailed);
      } else {
        present := false;
        loaded := false;
        needsRecovery := false;
        err := if io.syncDir then None else Some(IoFailed);
      }
      err := Released(err, io.guard);
    }

    // Takes the writer lease for the lifetime of a session.
    method AcquireWriter(io: LeaseIo) returns (err: Option<StoreError>)
      requires Valid()
      modifies this`leased
      ensures Valid() && Durable() == old(Durable())
      ensures err.None? <==> !old(leased) && !io.canceled && !io.canceledLocked && io.lock && !io.canceledHeld
      ensures leased == (old(leased) || err.None?)
    {
      hide ReplayAll, ApplyAll, Lines, Separator, NeedsSeparator, SnapshotOf;
      if io.canceled || io.canceledLocked {
        return Some(Canceled);
      }
      if leased || !io.lock {
        return Some(InUse);
      }
      if io.canceledHeld {
        return Some(Canceled);
      }
      leased := true;
      return None;
    }

    // The lease ends even when unlocking reports an error.
    method ReleaseWriter()
      requires Valid()
      modifies this`leased
      ensures Valid() && Durable() == old(Durable()) && !leased
    {
      hide ReplayAll, ApplyAll, Lines, Separator, NeedsSeparator, SnapshotOf;
      leased := false;
    }

    // Another process changes the file, which it can while this store holds no
    // lease. What the store believes survives exactly when no rollback is
    // pending, or the bytes the rollback keeps are still there.
    method ExternalChange(present: bool, disk: bytes)
      requires Valid()
      requires !leased
      modifies this`present, this`disk, this`infoCurrent, this`disturbed
      ensures Valid() <==>
                !needsRecovery || (present && committedOffset <= |disk| && CacheMatches(disk[..committedOffset]))
      ensures this.present == present && this.disk == disk && !infoCurrent && disturbed
    {
      hide ReplayAll, ApplyAll, Lines, Separator, NeedsSeparator, Tail;
      this.present := present;
      this.disk := disk;
      infoCurrent := false;
      disturbed := true;
    }

    // The process ends and a new one opens the file: only the file remains. A
    // pending rollback is forgotten, and those records of the failed batch show
    // up that had landed whole.
    method Restart()
      requires Valid()
      modifies this
      ensures Valid() && !needsRecovery && !leased
      ensures present == old(present) && disk == old(disk) && failed == old(failed)
      ensures !old(needsRecovery) ==> Durable() == old(Durable())
      ensures old(needsRecovery && !disturbed) ==>
                && old(Durable()).Ok?
                && Durable() == ApplyAll(old(Durable()).value, failed[..old(ShownOfFailed())])
                && (failed[0].kind == MESSAGE ==> (Durable() == old(Durable()) <==> old(ShownOfFailed()) == 0))
    {
      hide ReplayAll, ApplyAll, Lines, Separator, NeedsSeparator, Tail, Shown;
      if needsRecovery {
        CacheOfPrefix();
        if !disturbed {
          FailedShows();
        }
      }
      loaded := false;
      infoCurrent := false;
      needsRecovery := false;
      leased := false;
    }

    // The records of the failed batch that a new process would see.
    ghost function ShownOfFailed(): (j: nat)
      reads this
      ensures j <= |failed|
    {
      if committedOffset <= |disk| then Shown(disk[..committedOffset], failed, disk[committedOffset..]) else 0
    }

    lemma CacheOfPrefix()
      requires Valid() && needsRecovery
      ensures Durable() == Ok(snapshot) && snapshot.metadata.id == id != ""
    {
      hide ReplayFrom;
    }

    lemma FailedShows()
      requires Valid() && needsRecovery && !disturbed
      ensures ApplyAll(snapshot, failed[..ShownOfFailed()]).Ok?
      ensures SnapshotOf(id, disk) == ApplyAll(snapshot, failed[..ShownOfFailed()])
      ensures ReplayAll(disk).Ok? && ReplayAll(disk).value.1 >= committedOffset
      ensures failed[0].kind == MESSAGE ==> (SnapshotOf(id, disk) == Ok(snapshot) <==> ShownOfFailed() == 0)
    {
      hide ReplayAll, ApplyAll, Lines, Separator, NeedsSeparator, Tail, Shown, SnapshotOf;
      var d, x := disk[..committedOffset], disk[committedOffset..];
      CacheOfPrefix();
      assert d[..committedOffset] == d && d + x == disk;
      InterruptedAppend(id, d, snapshot, failed, x);
      var j := ShownOfFailed();
      if j == 0 {
        ApplyNothing(snapshot, failed);
      } else if failed[0].kind == MESSAGE {
        MessageShows(snapshot, failed, j);
      }
    }
  }
}
