/** Replaying a log file (internal/sessionstore/file.go, `replay`): the method with
    the loop of the source, the function it computes, and what that function
    says about committed, torn and cut files. */
module Replay {
  import opened Basics
  import opened Events

  const NL: byte := Codec.NEWLINE

  // ---------- lines ----------

  // Where the first line of `data` ends.
  function LineEnd(data: bytes): (k: nat)
    ensures k <= |data|
    ensures NL !in data[..k]
    ensures k < |data| ==> data[k] == NL
  {
    if data == [] || data[0] == NL then 0
    else
      var k := 1 + LineEnd(data[1..]);
      assert data[..k] == [data[0]] + data[1..][..k - 1];
      k
  }

  // The pieces between newlines: one more than there are newlines.
  function Split(data: bytes): (lines: seq<bytes>)
    ensures |lines| > 0
    decreases |data|
  {
    var k := LineEnd(data);
    if k == |data| then [data] else [data[..k]] + Split(data[k + 1..])
  }

  lemma LineEndIs(data: bytes, k: nat)
    requires k <= |data|
    requires NL !in data[..k]
    requires k < |data| ==> data[k] == NL
    ensures LineEnd(data) == k
  {
    var j := LineEnd(data);
    assert forall i :: 0 <= i < k ==> data[..k][i] == data[i];
    assert forall i :: 0 <= i < j ==> data[..j][i] == data[i];
  }

  // ---------- the fold ----------

  // Replays `data` on top of `s`: the snapshot reached and how many bytes of
  // `data` belong to complete records. A final line that does not parse is
  // ignored, with or without its newline.
  function ReplayFrom(s: Snapshot, data: bytes): (r: Result<(Snapshot, nat), StoreError>)
    ensures r.Ok? ==> r.value.1 <= |data|
    decreases |data|
  {
    if data == [] then Ok((s, 0))
    else
      var k := LineEnd(data);
      var rest := if k < |data| then data[k + 1..] else [];
      match ParseRecord(data[..k])
      case None => if rest == [] then Ok((s, 0)) else Err(Corrupted)
      case Some(e) =>
        var t :- Apply(s, e);
        if k == |data| then Ok((t, k))
        else
          var (u, n) :- ReplayFrom(t, rest);
          Ok((u, k + 1 + n))
  }

  function ReplayAll(data: bytes): (r: Result<(Snapshot, nat), StoreError>)
    ensures r.Ok? ==> r.value.1 <= |data| && r.value.0.metadata.id != ""
  {
    var (s, n) :- ReplayFrom(EMPTY, data);
    if s.metadata.id == "" then Err(Corrupted) else Ok((s, n))
  }

  // `r` with its byte count moved by `n`.
  function Shift(r: Result<(Snapshot, nat), StoreError>, n: nat): Result<(Snapshot, nat), StoreError> {
    match r
    case Ok((s, m)) => Ok((s, n + m))
    case Err(e) => Err(e)
  }

  // ---------- one line at a time ----------

  lemma LineOf(line: bytes, rest: bytes)
    requires NL !in line
    ensures LineEnd(line + [NL] + rest) == |line|
    ensures (line + [NL] + rest)[..|line|] == line
    ensures (line + [NL] + rest)[|line| + 1..] == rest
  {
    var d := line + [NL] + rest;
    assert d[..|line|] == line;
    LineEndIs(d, |line|);
  }

  lemma ReplayRecord(s: Snapshot, line: bytes, rest: bytes)
    requires NL !in line
    requires ParseRecord(line).Some?
    ensures var t := Apply(s, ParseRecord(line).value);
            ReplayFrom(s, line + [NL] + rest)
            == if t.Ok? then Shift(ReplayFrom(t.value, rest), |line| + 1) else Err(t.error)
  {
    hide Apply, ParseRecord, LineEnd;
    LineOf(line, rest);
  }

  lemma ReplayBadLine(s: Snapshot, line: bytes, rest: bytes)
    requires NL !in line
    requires ParseRecord(line).None?
    ensures ReplayFrom(s, line + [NL] + rest) == if rest == [] then Ok((s, 0)) else Err(Corrupted)
  {
    hide Apply, ParseRecord, LineEnd;
    LineOf(line, rest);
  }

  lemma ReplayLastLine(s: Snapshot, line: bytes)
    requires NL !in line
    requires line != []
    ensures ReplayFrom(s, line) ==
            if ParseRecord(line).None? then Ok((s, 0))
            else if Apply(s, ParseRecord(line).value).Ok? then Ok((Apply(s, ParseRecord(line).value).value, |line|))
            else Err(Apply(s, ParseRecord(line).value).error)
  {
    hide Apply, ParseRecord;
    assert line[..|line|] == line;
    LineEndIs(line, |line|);
  }

  lemma EmptyLineIsBad()
    ensures ParseRecord([]) == None
  {
  }

  // A file is one line, or a line, a newline and the rest.
  lemma Decompose(d: bytes) returns (line: bytes, rest: bytes)
    ensures NL !in line
    ensures d == line || d == line + [NL] + rest
    ensures LineEnd(d) < |d| ==> d == line + [NL] + rest
    ensures LineEnd(d) == |d| ==> d == line
    ensures |line| == LineEnd(d)
  {
    var k := LineEnd(d);
    line, rest := d[..k], if k < |d| then d[k + 1..] else [];
  }

  // What the remaining bytes look like from the first of the remaining lines.
  lemma FirstOfSplit(tail: bytes)
    ensures var line := Split(tail)[0];
            && NL !in line
            && |line| <= |tail|
            && (|Split(tail)| == 1 ==> tail == line)
            && (|Split(tail)| > 1 ==>
                  |line| < |tail| && tail == line + [NL] + tail[|line| + 1..]
                  && Split(tail)[1..] == Split(tail[|line| + 1..]))
  {
  }

  lemma EmptyTail(tail: bytes)
    ensures (|Split(tail)| == 1 && Split(tail)[0] == []) <==> tail == []
  {
  }

  method ReplayFile(data: bytes) returns (r: Result<(Snapshot, nat), StoreError>)
    ensures r == ReplayAll(data)
  {
    hide Apply, ParseRecord, ReplayFrom, Split;
    var s := EMPTY;
    var offset: nat := 0;
    var lines := Split(data);
    var i := 0;
    ghost var tail := data;
    ghost var shifted := ReplayFrom(s, data);
    while i < |lines|
      invariant i <= |lines|
      invariant i < |lines| ==> offset + |tail| == |data| && lines[i..] == Split(tail)
      invariant i < |lines| ==> ReplayFrom(EMPTY, data) == Shift(ReplayFrom(s, tail), offset)
      invariant i == |lines| ==> offset == |data| + 1 && ReplayFrom(EMPTY, data) == Ok((s, |data|))
    {
      var line := lines[i];
      assert line == Split(tail)[0] && lines[i + 1..] == Split(tail)[1..];
      FirstOfSplit(tail);
      EmptyTail(tail);
      if line == [] && i == |lines| - 1 {
        ReplayNothing(s);
        break;
      }
      ghost var rest := if |line| < |tail| then tail[|line| + 1..] else [];
      EmptyTail(rest);
      var e := ParseRecord(line);
      if e.None? {
        if i == |lines| - 1 || (i == |lines| - 2 && lines[|lines| - 1] == []) {
          ReplayTorn(s, line, tail, rest);
          break;
        }
        ReplayBadLine(s, line, rest);
        return Err(Corrupted);
      }
      ReplayGood(s, line, tail, rest, i == |lines| - 1);
      var applied := Apply(s, e.value);
      if applied.Err? {
        return Err(applied.error);
      }
      s := applied.value;
      offset := offset + |line| + 1;
      i := i + 1;
      tail := rest;
    }
    if s.metadata.id == "" {
      return Err(Corrupted);
    }
    return Ok((s, Min(offset, |data|)));
  }

  lemma ReplayNothing(s: Snapshot)
    ensures ReplayFrom(s, []) == Ok((s, 0))
  {
  }

  lemma ReplayTorn(s: Snapshot, line: bytes, tail: bytes, rest: bytes)
    requires NL !in line
    requires ParseRecord(line).None?
    requires tail == line || (tail == line + [NL] + rest && rest == [])
    ensures ReplayFrom(s, tail) == Ok((s, 0))
  {
    hide ReplayFrom, Apply, ParseRecord;
    if tail == line + [NL] + rest {
      ReplayBadLine(s, line, rest);
    } else if line == [] {
      ReplayNothing(s);
    } else {
      ReplayLastLine(s, line);
    }
  }

  lemma ReplayGood(s: Snapshot, line: bytes, tail: bytes, rest: bytes, last: bool)
    requires NL !in line
    requires ParseRecord(line).Some?
    requires if last then tail == line else tail == line + [NL] + rest
    ensures var t := Apply(s, ParseRecord(line).value);
            ReplayFrom(s, tail)
            == if t.Err? then Err(t.error)
               else if last then Ok((t.value, |tail|))
               else Shift(ReplayFrom(t.value, rest), |line| + 1)
  {
    hide ReplayFrom, Apply;
    EmptyLineIsBad();
    hide ParseRecord;
    if last {
      ReplayLastLine(s, line);
    } else {
      ReplayRecord(s, line, rest);
    }
  }

  // ---------- what a committed prefix means ----------

  // The whole of `d` is complete records, taking `s` to `t`.
  predicate Committed(s: Snapshot, d: bytes, t: Snapshot) {
    ReplayFrom(s, d) == Ok((t, |d|))
  }

  predicate NeedsSeparator(d: bytes) {
    |d| > 0 && d[|d| - 1] != NL
  }

  function Separator(d: bytes): bytes {
    if NeedsSeparator(d) then [NL] else []
  }

  // Records after a committed prefix replay on top of it: no record of the
  // prefix is merged with a record of the continuation.
  lemma {:induction false} ReplayContinues(s: Snapshot, d: bytes, t: Snapshot, x: bytes)
    requires Committed(s, d, t)
    ensures ReplayFrom(s, d + Separator(d) + x) == Shift(ReplayFrom(t, x), |d + Separator(d)|)
    decreases |d|
  {
    hide ReplayFrom, Apply, ParseRecord, Separator, Committed, Shift;
    if d == [] {
      ContinueNothing(s, t, x);
    } else {
      var line, rest := Decompose(d);
      CommittedStep(s, d, t, line, rest);
      if d == line {
        ContinueLine(s, d, x);
      } else {
        ContinueRest(s, line, rest, x);
        ReplayContinues(Apply(s, ParseRecord(line).value).value, rest, t, x);
        ShiftTwice(ReplayFrom(t, x), |rest + Separator(rest)|, |line| + 1);
      }
    }
  }

  lemma ContinueNothing(s: Snapshot, t: Snapshot, x: bytes)
    requires Committed(s, [], t)
    ensures ReplayFrom(s, [] + Separator([]) + x) == Shift(ReplayFrom(t, x), |[] + Separator([])|)
  {
    hide ReplayFrom;
    ReplayNothing(s);
    assert [] + Separator([]) + x == x;
  }

  lemma ContinueLine(s: Snapshot, line: bytes, x: bytes)
    requires NL !in line && line != []
    requires ParseRecord(line).Some? && Apply(s, ParseRecord(line).value).Ok?
    ensures ReplayFrom(s, line + Separator(line) + x)
            == Shift(ReplayFrom(Apply(s, ParseRecord(line).value).value, x), |line + Separator(line)|)
  {
    hide ReplayFrom, Apply, ParseRecord, Shift;
    assert line[|line| - 1] in line;
    ReplayRecord(s, line, x);
  }

  lemma ContinueRest(s: Snapshot, line: bytes, rest: bytes, x: bytes)
    requires NL !in line
    requires ParseRecord(line).Some? && Apply(s, ParseRecord(line).value).Ok?
    ensures var d, u := line + [NL] + rest, Apply(s, ParseRecord(line).value).value;
            && ReplayFrom(s, d + Separator(d) + x) == Shift(ReplayFrom(u, rest + Separator(rest) + x), |line| + 1)
            && |d + Separator(d)| == |line| + 1 + |rest + Separator(rest)|
  {
    hide ReplayFrom, Apply, ParseRecord, Shift, Separator;
    SameSeparator(line, rest);
    var y := rest + Separator(rest) + x;
    assert line + [NL] + rest + Separator(rest) + x == line + [NL] + y;
    ReplayRecord(s, line, y);
  }

  lemma SameSeparator(line: bytes, rest: bytes)
    ensures Separator(line + [NL] + rest) == Separator(rest)
  {
    var d := line + [NL] + rest;
    assert d[|d| - 1] == if rest == [] then NL else rest[|rest| - 1];
  }

  lemma ShiftTwice(r: Result<(Snapshot, nat), StoreError>, a: nat, b: nat)
    ensures Shift(Shift(r, a), b) == Shift(r, b + a)
  {
  }

  // The first line of a committed file is a record, and the rest is committed.
  lemma CommittedStep(s: Snapshot, d: bytes, t: Snapshot, line: bytes, rest: bytes)
    requires Committed(s, d, t)
    requires d != []
    requires NL !in line
    requires d == line || d == line + [NL] + rest
    ensures ParseRecord(line).Some?
    ensures Apply(s, ParseRecord(line).value).Ok?
    ensures if d == line then Apply(s, ParseRecord(line).value).value == t
            else Committed(Apply(s, ParseRecord(line).value).value, rest, t)
  {
    hide ReplayFrom, Apply, ParseRecord;
    if ParseRecord(line).None? {
      if d == line {
        ReplayLastLine(s, line);
      } else {
        ReplayBadLine(s, line, rest);
      }
    } else if d == line {
      ReplayLastLine(s, line);
    } else {
      ReplayRecord(s, line, rest);
    }
  }

  // Cutting a file at the offset replay returned keeps everything it returned.
  lemma {:induction false} TruncateToOffset(s: Snapshot, d: bytes)
    requires ReplayFrom(s, d).Ok?
    ensures var (t, n) := ReplayFrom(s, d).value; Committed(s, d[..n], t)
    decreases |d|
  {
    hide ReplayFrom, Apply, ParseRecord;
    ReplayNothing(s);
    if d != [] {
      var line, rest := Decompose(d);
      if ParseRecord(line).None? {
        if d == line {
          ReplayLastLine(s, line);
        } else {
          ReplayBadLine(s, line, rest);
        }
      } else if d == line {
        ReplayLastLine(s, line);
        assert d[..|d|] == d;
      } else {
        ReplayRecord(s, line, rest);
        var u := Apply(s, ParseRecord(line).value).value;
        TruncateToOffset(u, rest);
        var (t, m) := ReplayFrom(u, rest).value;
        assert d[..|line| + 1 + m] == line + [NL] + rest[..m];
        ReplayRecord(s, line, rest[..m]);
      }
    }
  }

  // ---------- batches ----------

  // The number of records of a batch whose bytes, final newline aside, lie
  // within the first `cut` bytes of the written lines.
  function Survivors(es: seq<Event>, cut: nat): (j: nat)
    ensures j <= |es|
  {
    if es == [] || cut < |Record(es[0])| then 0
    else if cut == |Record(es[0])| then 1
    else 1 + Survivors(es[1..], cut - |Record(es[0])| - 1)
  }

  lemma LinesStep(es: seq<Event>)
    requires es != []
    ensures Lines(es) == Record(es[0]) + [NL] + Lines(es[1..])
  {
  }

  lemma LinesPrefix(es: seq<Event>, j: nat)
    requires 0 < j <= |es|
    ensures Lines(es[..j]) == Record(es[0]) + [NL] + Lines(es[1..][..j - 1])
  {
    hide Record;
    assert es[..j][1..] == es[1..][..j - 1];
  }

  lemma ApplyPrefix(s: Snapshot, es: seq<Event>, j: nat)
    requires 0 < j <= |es|
    requires Apply(s, es[0]).Ok?
    ensures ApplyAll(s, es[..j]) == ApplyAll(Apply(s, es[0]).value, es[1..][..j - 1])
  {
    hide Apply;
    assert es[..j][1..] == es[1..][..j - 1];
  }

  // A cut anywhere in the lines of a batch replays to a prefix of the batch,
  // and the returned offset ends with the last record of that prefix.
  lemma {:induction false} ReplayCutLines(s: Snapshot, es: seq<Event>, cut: nat)
    requires ApplyAll(s, es).Ok?
    requires cut <= |Lines(es)|
    ensures var j := Survivors(es, cut);
            && ApplyAll(s, es[..j]).Ok?
            && ReplayFrom(s, Lines(es)[..cut]) == Ok((ApplyAll(s, es[..j]).value, Min(|Lines(es[..j])|, cut)))
    ensures cut == |Lines(es)| ==> Survivors(es, cut) == |es|
    decreases es
  {
    hide ReplayFrom, Apply, ParseRecord, Record;
    if es == [] {
      ReplayNothing(s);
      assert es[..0] == [];
    } else {
      RecordFacts(es[0]);
      LinesStep(es);
      ParseCutRecord(es[0], cut);
      if cut <= |Record(es[0])| {
        ReplayCutFirst(s, es, cut);
      } else {
        var t := Apply(s, es[0]).value;
        var more := cut - |Record(es[0])| - 1;
        ReplayCutLines(t, es[1..], more);
        ReplayRecord(s, Record(es[0]), Lines(es[1..])[..more]);
        assert Lines(es)[..cut] == Record(es[0]) + [NL] + Lines(es[1..])[..more];
        var j := Survivors(es, cut);
        assert j == 1 + Survivors(es[1..], more);
        LinesPrefix(es, j);
        ApplyPrefix(s, es, j);
      }
    }
  }

  lemma ParseCutRecord(e: Event, cut: nat)
    ensures cut < |Record(e)| ==> ParseRecord(Record(e)[..cut]) == None
    ensures cut < |Record(e)| ==> NL !in Record(e)[..cut]
  {
    hide Record, ParseRecord;
    RecordFacts(e);
  }

  // The cut lies within the first record, or just before its newline.
  lemma ReplayCutFirst(s: Snapshot, es: seq<Event>, cut: nat)
    requires es != []
    requires ApplyAll(s, es).Ok?
    requires cut <= |Record(es[0])|
    requires Lines(es) == Record(es[0]) + [NL] + Lines(es[1..])
    ensures var j := Survivors(es, cut);
            && ApplyAll(s, es[..j]).Ok?
            && ReplayFrom(s, Lines(es)[..cut]) == Ok((ApplyAll(s, es[..j]).value, Min(|Lines(es[..j])|, cut)))
  {
    hide ReplayFrom, Apply, ParseRecord, Record;
    RecordFacts(es[0]);
    ParseCutRecord(es[0], cut);
    var data := Lines(es)[..cut];
    assert data == Record(es[0])[..cut];
    ReplayNothing(s);
    if cut == |Record(es[0])| {
      assert data == Record(es[0]);
      LinesPrefix(es, 1);
      ApplyPrefix(s, es, 1);
      assert es[1..][..0] == [];
    } else {
      assert es[..0] == [];
    }
    if cut > 0 {
      ReplayLastLine(s, data);
    }
  }

  lemma ReplayLines(s: Snapshot, es: seq<Event>)
    requires ApplyAll(s, es).Ok?
    ensures Committed(s, Lines(es), ApplyAll(s, es).value)
  {
    hide ReplayFrom, Apply, Lines, ApplyAll, Survivors;
    ReplayCutLines(s, es, |Lines(es)|);
    assert Lines(es)[..|Lines(es)|] == Lines(es);
    assert es[..|es|] == es;
  }

  // Appending a batch to a committed file, with a separator where one is
  // missing, commits the batch.
  lemma AppendCommits(d: bytes, s: Snapshot, es: seq<Event>)
    requires ReplayAll(d) == Ok((s, |d|))
    requires ApplyAll(s, es).Ok?
    requires es != []
    ensures var after := d + Separator(d) + Lines(es);
            ReplayAll(after) == Ok((ApplyAll(s, es).value, |after|))
  {
    hide ReplayFrom, Apply, Lines, ApplyAll;
    ReplayContinues(EMPTY, d, s, Lines(es));
    ReplayLines(s, es);
    ApplyAllKeeps(s, es);
  }

  // The crash theorem. `d` is a committed file and a batch was being appended
  // when everything after `cut` bytes was lost. Replay of what survives never
  // fails; it yields the old snapshot plus exactly the records that fit, and
  // its offset marks the end of the last of them.
  lemma CrashedAppend(d: bytes, s: Snapshot, es: seq<Event>, cut: nat)
    requires ReplayAll(d) == Ok((s, |d|))
    requires ApplyAll(s, es).Ok?
    requires cut <= |Separator(d) + Lines(es)|
    ensures var sep := |Separator(d)|;
            var j := if cut < sep then 0 else Survivors(es, cut - sep);
            && ApplyAll(s, es[..j]).Ok?
            && var n := if cut < sep then |d| else Min(|d| + sep + |Lines(es[..j])|, |d| + cut);
               ReplayAll(d + (Separator(d) + Lines(es))[..cut]) == Ok((ApplyAll(s, es[..j]).value, n))
  {
    hide ReplayFrom, Apply, Lines, ApplyAll, Survivors;
    var sep := Separator(d);
    var data := d + (sep + Lines(es))[..cut];
    ApplyNothing(s, es);
    if cut < |sep| {
      assert data == d;
    } else {
      var x := Lines(es)[..cut - |sep|];
      assert data == d + sep + x;
      ReplayContinues(EMPTY, d, s, x);
      ReplayCutLines(s, es, cut - |sep|);
      ApplyAllKeeps(s, es[..Survivors(es, cut - |sep|)]);
    }
  }

  lemma ApplyNothing(s: Snapshot, es: seq<Event>)
    ensures ApplyAll(s, es[..0]) == Ok(s)
  {
  }
}
