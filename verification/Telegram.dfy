/** The polling loop and the message splitter of the Telegram adapter
    (internal/telegram/adapter.go). */
module Telegram {
  import opened Basics

  // An update, and what becomes of it: `ignorable` ones are not messages for
  // the bot; `accepts` is the handler's answer if it is asked.
  datatype Update = Update(id: int, ignorable: bool, accepts: bool)

  predicate Settled(u: Update) {
    u.ignorable || u.accepts
  }

  predicate Ascending(updates: seq<Update>) {
    forall i, j :: 0 <= i < j < |updates| ==> updates[i].id < updates[j].id
  }

  // The offset after a batch, and whether a message was rejected.
  function AfterBatch(offset: int, updates: seq<Update>): (int, bool)
    decreases |updates|
  {
    if updates == [] then (offset, false)
    else
      var u := updates[0];
      if u.id < offset then AfterBatch(offset, updates[1..])
      else if !Settled(u) then (offset, true)
      else AfterBatch(u.id + 1, updates[1..])
  }

  class Adapter {
    var offset: int

    constructor ()
      ensures offset == 0
    {
      offset := 0;
    }

    // One batch; the context is found canceled before the update at `canceledAt`.
    method Poll(updates: seq<Update>, canceledAt: Option<nat>) returns (failed: bool)
      modifies this
      ensures var reached := if canceledAt.Some? && canceledAt.value < |updates| then updates[..canceledAt.value] else updates;
              var (after, rejected) := AfterBatch(old(offset), reached);
              offset == after && failed == (rejected || reached != updates)
    {
      ghost var reached :=
        if canceledAt.Some? && canceledAt.value < |updates| then updates[..canceledAt.value] else updates;
      assert reached[0..] == reached;
      for i := 0 to |updates|
        invariant i <= |reached|
        invariant AfterBatch(old(offset), reached) == AfterBatch(offset, reached[i..])
      {
        if canceledAt == Some(i) {
          return true;
        }
        var u := updates[i];
        assert reached[i..][0] == u && reached[i..][1..] == reached[i + 1..];
        if u.id >= offset {
          if !u.ignorable {
            if !u.accepts {
              return true;
            }
          }
          offset := u.id + 1;
        }
      }
      return false;
    }
  }

  predicate Overtaken(updates: seq<Update>, k: nat)
    requires k < |updates|
  {
    exists j :: 0 <= j < k && updates[j].id >= updates[k].id
  }

  // The offset never goes back, and passes an update of the batch only when
  // that was settled or a larger one came before it.
  lemma {:induction false} PassesOnlySettled(offset: int, updates: seq<Update>)
    ensures var (after, rejected) := AfterBatch(offset, updates);
            && after >= offset
            && (forall k :: 0 <= k < |updates| && offset <= updates[k].id < after ==>
                  Settled(updates[k]) || Overtaken(updates, k))
            && (!rejected ==> forall k :: 0 <= k < |updates| ==> updates[k].id < after)
            && (after == offset || exists k :: 0 <= k < |updates| && updates[k].id + 1 == after)
    decreases |updates|
  {
    hide Settled;
    if updates != [] {
      var u, rest := updates[0], updates[1..];
      var next := if u.id < offset then offset else u.id + 1;
      if u.id < offset || Settled(u) {
        PassesOnlySettled(next, rest);
        var after := AfterBatch(offset, updates).0;
        forall k | 0 <= k < |updates| && offset <= updates[k].id < after
          ensures Settled(updates[k]) || Overtaken(updates, k)
        {
          if k > 0 {
            assert rest[k - 1] == updates[k];
            if updates[k].id < next {
              assert updates[0].id >= updates[k].id;
            } else if !Settled(updates[k]) {
              OvertakenInRest(updates, k);
            }
          }
        }
        assert forall k :: 1 <= k < |updates| ==> updates[k] == rest[k - 1];
      }
    }
  }

  lemma OvertakenInRest(updates: seq<Update>, k: nat)
    requires 0 < k < |updates|
    requires Overtaken(updates[1..], k - 1)
    ensures Overtaken(updates, k)
  {
    var j :| 0 <= j < k - 1 && updates[1..][j].id >= updates[1..][k - 1].id;
    assert updates[j + 1].id >= updates[k].id;
  }

  // The adapter has no use for it, or the handler takes it.
  predicate Done(u: Update) {
    u.ignorable || u.accepts
  }

  // In a batch in ascending order nothing is overtaken, so the offset passes
  // only what was handled or ignorable. It stops at the first message that is
  // rejected, right behind what came before it, and without one at the end.
  lemma AscendingBatch(offset: int, updates: seq<Update>)
    requires Ascending(updates)
    ensures var (after, rejected) := AfterBatch(offset, updates);
            && after >= offset
            && (after == offset || exists k :: 0 <= k < |updates| && updates[k].id + 1 == after)
            && (forall k :: 0 <= k < |updates| && offset <= updates[k].id < after ==> Done(updates[k]))
            && (rejected <==> exists k :: 0 <= k < |updates| && updates[k].id >= offset && !Done(updates[k]))
            && (rejected ==> exists k :: StopsAt(updates, k, after))
            && (!rejected ==> forall k :: 0 <= k < |updates| ==> updates[k].id < after)
  {
    hide AfterBatch;
    PassesOnlySettled(offset, updates);
    if AfterBatch(offset, updates).1 {
      RejectedStaysAhead(offset, updates);
    }
  }

  // The offset stands between update `k`, which is not done, and the ones before it.
  predicate StopsAt(updates: seq<Update>, k: int, after: int) {
    && 0 <= k < |updates| && !Done(updates[k]) && updates[k].id >= after
    && forall j :: 0 <= j < k ==> updates[j].id < after
  }

  lemma {:induction false} RejectedStaysAhead(offset: int, updates: seq<Update>)
    requires AfterBatch(offset, updates).1
    ensures exists k :: StopsAt(updates, k, AfterBatch(offset, updates).0)
    decreases |updates|
  {
    var u, rest := updates[0], updates[1..];
    if u.id < offset || Settled(u) {
      var next := if u.id < offset then offset else u.id + 1;
      RejectedStaysAhead(next, rest);
      var after := AfterBatch(next, rest).0;
      var k :| StopsAt(rest, k, after);
      PassesOnlySettled(next, rest);
      assert forall j :: 0 < j < |updates| ==> updates[j] == rest[j - 1];
      assert StopsAt(updates, k + 1, after);
    } else {
      assert StopsAt(updates, 0, offset);
    }
  }

  // ---------- several polls ----------

  // The offset after the batches of several polls, as far as each was reached.
  function AfterPolls(offset: int, batches: seq<seq<Update>>): int {
    if batches == [] then offset
    else AfterBatch(AfterPolls(offset, batches[..|batches| - 1]), batches[|batches| - 1]).0
  }

  // The poll in which the offset passes an ID, and what it settled.
  predicate PassedIn(offset: int, batches: seq<seq<Update>>, m: nat, id: int)
    requires m < |batches|
  {
    var before := AfterPolls(offset, batches[..m]);
    && before <= id < AfterBatch(before, batches[m]).0
    && forall k :: 0 <= k < |batches[m]| && batches[m][k].id == id ==> Done(batches[m][k])
  }

  // Over any number of polls with ascending batches, rejections and retries
  // included: the offset passes an ID in one of them, and there every update
  // with that ID was handled or ignorable.
  lemma {:induction false} PolledOnlySettled(offset: int, batches: seq<seq<Update>>, id: int)
    requires forall m :: 0 <= m < |batches| ==> Ascending(batches[m])
    requires offset <= id < AfterPolls(offset, batches)
    ensures exists m :: 0 <= m < |batches| && PassedIn(offset, batches, m, id)
    decreases |batches|
  {
    hide AfterBatch, Done, Ascending;
    var n := |batches| - 1;
    var before := AfterPolls(offset, batches[..n]);
    if id < before {
      PolledOnlySettled(offset, batches[..n], id);
      var m :| 0 <= m < n && PassedIn(offset, batches[..n], m, id);
      assert batches[..n][..m] == batches[..m];
      assert PassedIn(offset, batches, m, id);
    } else {
      AscendingBatch(before, batches[n]);
      assert PassedIn(offset, batches, n, id);
    }
  }

  // An overtaken update is passed without anybody looking at it, whenever the
  // batch gets that far.
  lemma {:induction false} OvertakenIsLost(offset: int, updates: seq<Update>, k: nat)
    requires k < |updates| && Overtaken(updates, k)
    requires !AfterBatch(offset, updates[..k]).1
    ensures updates[k].id < AfterBatch(offset, updates[..k]).0
  {
    hide AfterBatch;
    PassesOnlySettled(offset, updates[..k]);
    var j :| 0 <= j < k && updates[j].id >= updates[k].id;
    assert updates[..k][j] == updates[j];
  }

  lemma OvertakenExample()
    ensures AfterBatch(0, [Update(5, false, true), Update(3, false, false)]) == (6, false)
  {
    var lost := [Update(3, false, false)];
    assert [Update(5, false, true), Update(3, false, false)][1..] == lost;
    assert lost[1..] == [];
    assert AfterBatch(6, lost) == (6, false);
  }

  // ---------- splitting ----------

  function Joined(chunks: seq<string>): string {
    if chunks == [] then "" else Joined(chunks[..|chunks| - 1]) + chunks[|chunks| - 1]
  }

  // A chunk that is not the last: within the limit, ending at the last newline
  // of the latter half of the window if there is one, and full otherwise.
  predicate GoodCut(window: string, end: nat, limit: nat)
    requires |window| > limit >= 1
  {
    && 0 < end <= limit
    && (forall i :: end <= i < limit && limit / 2 <= i ==> window[i] != '\n')
    && (end < limit ==> end > limit / 2 && window[end - 1] == '\n')
  }

  // A chunk that other chunks follow: full, or cut after a newline in its
  // latter half.
  predicate InnerChunk(chunk: string, limit: nat) {
    |chunk| == limit || (limit / 2 < |chunk| < limit && chunk[|chunk| - 1] == '\n')
  }

  predicate InnerChunks(chunks: seq<string>, limit: nat) {
    forall k :: 0 <= k < |chunks| ==> chunks[k] != "" && InnerChunk(chunks[k], limit)
  }

  lemma JoinedSnoc(chunks: seq<string>, chunk: string)
    ensures Joined(chunks + [chunk]) == Joined(chunks) + chunk
  {
    assert (chunks + [chunk])[..|chunks|] == chunks;
  }

  function Limit(requested: int): nat {
    if requested < 1 then 1 else requested
  }

  // Nothing is lost or added; every chunk fits, and all but the last are cut
  // at a newline or are full.
  method SplitMessage(text: string, requested: int) returns (chunks: seq<string>)
    ensures Joined(chunks) == text
    ensures chunks == [] <==> text == ""
    ensures chunks != [] ==>
              var n := |chunks| - 1;
              InnerChunks(chunks[..n], Limit(requested)) && 0 < |chunks[n]| <= Limit(requested)
  {
    hide InnerChunk, Joined;
    chunks := [];
    JoinedNone();
    if text == "" {
      return;
    }
    var limit := Limit(requested);
    var runes := text;
    while |runes| > limit
      invariant Joined(chunks) + runes == text
      invariant runes != ""
      invariant InnerChunks(chunks, limit)
      decreases |runes|
    {
      var end := CutPoint(runes, limit);
      var chunk := runes[..end];
      JoinedSnoc(chunks, chunk);
      CutIsInner(runes, end, limit);
      assert chunk + runes[end..] == runes;
      chunks := chunks + [chunk];
      runes := runes[end..];
    }
    JoinedSnoc(chunks, runes);
    assert (chunks + [runes])[..|chunks|] == chunks;
    chunks := chunks + [runes];
  }

  lemma JoinedNone()
    ensures Joined([]) == ""
  {
  }

  lemma CutIsInner(window: string, end: nat, limit: nat)
    requires |window| > limit >= 1 && GoodCut(window, end, limit)
    ensures InnerChunk(window[..end], limit)
  {
  }

  method CutPoint(runes: string, limit: nat) returns (end: nat)
    requires |runes| > limit >= 1
    ensures GoodCut(runes, end, limit)
  {
    var i: int := limit - 1;
    while i >= limit / 2
      invariant limit / 2 - 1 <= i < limit
      invariant forall k :: i < k < limit ==> runes[k] != '\n'
    {
      if runes[i] == '\n' {
        return i + 1;
      }
      i := i - 1;
    }
    return limit;
  }
}
