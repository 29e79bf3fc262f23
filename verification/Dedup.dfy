/** Message deduplication at admission (internal/gateway/dedup.go, `admit` of
    gateway.go): a bounded table that remembers only what was accepted. */
module Dedup {
  import opened Basics

  const MAX_SEEN := 4096
  const TTL := 24 * 60 * 60 * 1000

  type Table = map<string, int>

  predicate Contains(t: Table, key: string, now: int) {
    key in t && now - t[key] < TTL
  }

  predicate Oldest(t: Table, key: string) {
    key in t && forall k :: k in t ==> t[key] <= t[k]
  }

  // One acceptance: the key, its time, and the entry evicted to make room.
  datatype Entry = Entry(key: string, time: int, victim: Option<string>)

  function Remembered(t: Table, e: Entry): Table {
    (if e.victim.Some? then t - {e.victim.value} else t)[e.key := e.time]
  }

  function TableAfter(log: seq<Entry>): Table {
    if log == [] then map[] else Remembered(TableAfter(log[..|log| - 1]), log[|log| - 1])
  }

  // What the gateway can do next: accept a message that the table does not
  // contain, evicting an oldest entry exactly when the table is full.
  predicate MayFollow(log: seq<Entry>, e: Entry) {
    var t := TableAfter(log);
    && e.key != ""
    && !Contains(t, e.key, e.time)
    && (log != [] ==> log[|log| - 1].time <= e.time)
    && (if |t| >= MAX_SEEN then e.victim.Some? && Oldest(t, e.victim.value) else e.victim.None?)
  }

  // Every history of acceptances the gateway can produce.
  predicate History(log: seq<Entry>) {
    log == [] || (History(log[..|log| - 1]) && MayFollow(log[..|log| - 1], log[|log| - 1]))
  }

  lemma RemovedSize(t: Table, key: string)
    requires key in t
    ensures |t - {key}| == |t| - 1
  {
    assert t == (t - {key})[key := t[key]];
  }

  lemma AddedSize(t: Table, key: string, now: int)
    ensures |t[key := now]| <= |t| + 1
  {
    assert t[key := now].Keys == t.Keys + {key};
    assert |t.Keys + {key}| <= |t.Keys| + 1 by {
      if key !in t.Keys {
        assert t.Keys + {key} - {key} == t.Keys;
      } else {
        assert t.Keys + {key} == t.Keys;
      }
    }
  }

  // The table never exceeds its bound, and holds only keys of accepted messages.
  lemma {:induction false} TableIsBounded(log: seq<Entry>)
    requires History(log)
    ensures |TableAfter(log)| <= 4096
    ensures "" !in TableAfter(log)
  {
    if log != [] {
      var n := |log| - 1;
      TableIsBounded(log[..n]);
      var t, e := TableAfter(log[..n]), log[n];
      if e.victim.Some? {
        RemovedSize(t, e.victim.value);
        AddedSize(t - {e.victim.value}, e.key, e.time);
      } else {
        AddedSize(t, e.key, e.time);
      }
    }
  }

  lemma MayAccept(log: seq<Entry>, e: Entry)
    requires e.key != "" && !Contains(TableAfter(log), e.key, e.time)
    requires log != [] ==> log[|log| - 1].time <= e.time
    requires |TableAfter(log)| >= MAX_SEEN ==> e.victim.Some? && Oldest(TableAfter(log), e.victim.value)
    requires |TableAfter(log)| < MAX_SEEN ==> e.victim == None
    ensures MayFollow(log, e)
  {
    hide Contains, Oldest, TableAfter;
  }

  lemma ExtendHistory(log: seq<Entry>, e: Entry)
    requires History(log) && MayFollow(log, e)
    ensures History(log + [e]) && TableAfter(log + [e]) == Remembered(TableAfter(log), e)
  {
    hide MayFollow;
    assert (log + [e])[..|log|] == log;
  }

  predicate LastOf(log: seq<Entry>, i: nat, key: string) {
    i < |log| && log[i].key == key && forall j :: i < j < |log| ==> log[j].key != key
  }

  // Entry `m` evicted `key` from a full table in which nothing was older.
  predicate EvictedAt(log: seq<Entry>, m: nat, key: string)
    requires m < |log|
  {
    var t := TableAfter(log[..m]);
    log[m].victim == Some(key) && |t| >= 4096 && Oldest(t, key)
  }

  // The last acceptance of a key is still in the table, unless it was evicted since.
  lemma {:induction false} LastIsRemembered(log: seq<Entry>, i: nat, key: string)
    requires History(log) && LastOf(log, i, key)
    ensures || (key in TableAfter(log) && TableAfter(log)[key] == log[i].time)
            || exists m :: i < m < |log| && EvictedAt(log, m, key)
    decreases |log|
  {
    hide Contains, Oldest;
    var n := |log| - 1;
    if i < n {
      LastIsRemembered(log[..n], i, key);
      if m :| i < m < n && EvictedAt(log[..n], m, key) {
        assert log[..n][..m] == log[..m];
        assert EvictedAt(log, m, key);
      } else if log[n].victim == Some(key) {
        assert EvictedAt(log, n, key);
      }
    }
  }

  // Whatever the table holds was accepted, at that time.
  lemma {:induction false} SeenWasAccepted(log: seq<Entry>, key: string)
    requires key in TableAfter(log)
    ensures exists i :: 0 <= i < |log| && log[i].key == key && log[i].time == TableAfter(log)[key]
    decreases |log|
  {
    var n := |log| - 1;
    if log[n].key != key {
      SeenWasAccepted(log[..n], key);
    }
  }

  // A message is accepted a second time only a day after the first, or after
  // its entry was evicted from a full table with no older entry.
  lemma AcceptedAgain(log: seq<Entry>, i: nat, j: nat)
    requires History(log) && i < j < |log|
    requires log[i].key == log[j].key
    requires forall k :: i < k < j ==> log[k].key != log[i].key
    ensures log[j].time - log[i].time >= 86400000 || exists m :: i < m < j && EvictedAt(log, m, log[i].key)
  {
    hide Oldest;
    var p := log[..j];
    PrefixOfHistory(log, j);
    assert LastOf(p, i, log[i].key);
    LastIsRemembered(p, i, log[i].key);
    assert log[..j + 1][..j] == p;
    if m :| i < m < |p| && EvictedAt(p, m, log[i].key) {
      assert p[..m] == log[..m];
      assert EvictedAt(log, m, log[i].key);
    }
  }

  lemma {:induction false} PrefixOfHistory(log: seq<Entry>, j: nat)
    requires History(log) && j <= |log|
    ensures History(log[..j])
    ensures j < |log| ==> MayFollow(log[..j], log[j])
    decreases |log|
  {
    hide MayFollow;
    var n := |log| - 1;
    if j == |log| {
      assert log[..j] == log;
    } else if j < n {
      PrefixOfHistory(log[..n], j);
      assert log[..n][..j] == log[..j];
    }
  }

  // ---------- the objects ----------

  datatype AdmitResult = Accepted | Command | Ignored | Duplicate | Rejected

  class Deduplicator {
    var seen: Table

    // Everything accepted so far.
    ghost var log: seq<Entry>

    ghost predicate Valid()
      reads this
    {
      History(log) && seen == TableAfter(log)
    }

    constructor ()
      ensures Valid() && log == []
    {
      seen := map[];
      log := [];
    }

    // The loop over the entries, in whatever order the map yields them.
    method OldestKey() returns (oldestKey: string)
      requires seen != map[] && "" !in seen
      ensures Oldest(seen, oldestKey)
    {
      oldestKey := "";
      var oldest := 0;
      var rest := seen.Keys;
      while rest != {}
        invariant rest <= seen.Keys
        invariant oldestKey == "" ==> rest == seen.Keys
        invariant oldestKey != "" ==> oldestKey in seen && seen[oldestKey] == oldest
        invariant oldestKey != "" ==> forall k :: k in seen && k !in rest ==> oldest <= seen[k]
        decreases |rest|
      {
        var id :| id in rest;
        rest := rest - {id};
        var at := seen[id];
        if oldestKey == "" || at < oldest {
          oldestKey, oldest := id, at;
        }
      }
    }

    method Remember(key: string, now: int)
      requires Valid() && key != ""
      requires !Contains(seen, key, now)
      requires log != [] ==> log[|log| - 1].time <= now
      modifies this
      ensures Valid()
      ensures exists victim :: log == old(log) + [Entry(key, now, victim)]
      ensures key in seen && seen[key] == now && |seen| <= 4096
    {
      hide Contains, Oldest, History, TableAfter, MayFollow;
      TableIsBounded(log);
      ghost var victim: Option<string> := None;
      if |seen| >= MAX_SEEN {
        var oldestKey := OldestKey();
        victim := Some(oldestKey);
        seen := seen - {oldestKey};
      }
      seen := seen[key := now];
      ghost var e := Entry(key, now, victim);
      MayAccept(log, e);
      ExtendHistory(log, e);
      log := log + [e];
      TableIsBounded(log);
    }

    // `admit`: the check, the command or the enqueue, and the memory of it, all
    // under the gateway's lock. `blank` and `addressed` describe the text and
    // the mention, `isCommand` the router, `enqueued` the conversation manager.
    method Admit(key: string, now: int, canceled: bool, blank: bool, isCommand: bool, addressed: bool, enqueued: bool)
      returns (r: AdmitResult)
      requires Valid() && key != ""
      requires log != [] ==> log[|log| - 1].time <= now
      modifies this
      ensures Valid()
      // What was accepted within a day, and not forgotten, is a duplicate.
      ensures r == Duplicate <==> !canceled && !blank && key in old(seen) && now - old(seen)[key] < 86400000
      ensures r == Command <==> !canceled && !blank && !(key in old(seen) && now - old(seen)[key] < 86400000) && isCommand
      ensures r == Accepted <==>
                && !canceled && !blank && !(key in old(seen) && now - old(seen)[key] < 86400000)
                && !isCommand && addressed && enqueued
      ensures r == Duplicate ==>
                exists i :: 0 <= i < |old(log)| && old(log)[i].key == key && now - old(log)[i].time < 86400000
      // Only success is remembered: what was refused, ignored or not addressed
      // stays admissible.
      ensures r == Accepted || r == Command ==> exists victim :: log == old(log) + [Entry(key, now, victim)]
      ensures r != Accepted && r != Command ==> log == old(log) && seen == old(seen)
      ensures r == Accepted || r == Command ==> Contains(seen, key, now)
    {
      hide History, TableAfter;
      if canceled {
        return Rejected;
      }
      if blank {
        return Ignored;
      }
      if Contains(seen, key, now) {
        SeenWasAccepted(log, key);
        return Duplicate;
      }
      if isCommand {
        Remember(key, now);
        return Command;
      }
      if !addressed {
        return Ignored;
      }
      if !enqueued {
        return Rejected;
      }
      Remember(key, now);
      return Accepted;
    }
  }
}
