/** The grammar of message histories (internal/context/builder.go, `units`):
    tool calls are answered at once and exactly once, and an ordinary user
    message starts a turn. */
module Turns {
  import opened Basics
  import opened Schema

  datatype ChainError = ToolChain | BudgetExceeded

  predicate DistinctIds(calls: seq<ToolCall>) {
    && (forall i :: 0 <= i < |calls| ==> calls[i].id != "")
    && (forall i, j :: 0 <= i < j < |calls| ==> calls[i].id != calls[j].id)
  }

  predicate Calls(calls: seq<ToolCall>, id: string) {
    exists i :: 0 <= i < |calls| && calls[i].id == id
  }

  predicate ResultOf(calls: seq<ToolCall>, r: Message) {
    r.role == ROLE_USER && r.toolCalls == [] && Calls(calls, r.toolCallId)
  }

  // Results of the given calls, none of them twice.
  predicate AnswersSome(calls: seq<ToolCall>, rs: seq<Message>) {
    && (forall i :: 0 <= i < |rs| ==> ResultOf(calls, rs[i]))
    && (forall i, j :: 0 <= i < j < |rs| ==> rs[i].toolCallId != rs[j].toolCallId)
  }

  // A history that begins with a complete unit: a plain message, or an
  // assistant message with tool calls followed by one result for each.
  predicate StartsWithUnit(h: seq<Message>) {
    && h != []
    && h[0].toolCallId == ""
    && (h[0].toolCalls != [] ==>
          && h[0].role == ROLE_ASSISTANT
          && DistinctIds(h[0].toolCalls)
          && UnitSize(h[0]) <= |h|
          && AnswersSome(h[0].toolCalls, h[1..UnitSize(h[0])]))
  }

  function UnitSize(m: Message): nat {
    1 + |m.toolCalls|
  }

  predicate Legal(h: seq<Message>)
    decreases |h|
  {
    h == [] || (StartsWithUnit(h) && Legal(h[UnitSize(h[0])..]))
  }

  // The first position from `i` on where a turn starts, or the end.
  function NextTurn(h: seq<Message>, i: nat): (j: nat)
    requires i <= |h|
    ensures i <= j <= |h|
    ensures forall k :: i <= k < j ==> !OrdinaryUser(h[k])
    ensures j < |h| ==> OrdinaryUser(h[j])
    decreases |h| - i
  {
    if i == |h| || OrdinaryUser(h[i]) then i else NextTurn(h, i + 1)
  }

  function TurnsOf(h: seq<Message>): (g: seq<seq<Message>>)
    ensures h != [] ==> g != []
    decreases |h|
  {
    if h == [] then []
    else
      var j := NextTurn(h, 1);
      [h[..j]] + TurnsOf(h[j..])
  }

  function Flatten(g: seq<seq<Message>>): seq<Message> {
    if g == [] then [] else g[0] + Flatten(g[1..])
  }

  // ---------- the method ----------

  method Units(history: seq<Message>) returns (r: Result<seq<seq<Message>>, ChainError>)
    ensures r == if Legal(history) then Ok(TurnsOf(history)) else Err(ToolChain)
  {
    hide Legal, TurnsOf, StartsWithUnit;
    var out: seq<seq<Message>> := [];
    var i := 0;
    assert history[..0] == [] && history[0..] == history;
    TurnsOfNothing();
    while i < |history|
      invariant i <= |history|
      invariant Legal(history) == Legal(history[i..])
      invariant out == TurnsOf(history[..i])
      decreases |history| - i
    {
      LegalSteps(history[i..]);
      var next := UnitAt(history, i);
      if next.None? {
        return Err(ToolChain);
      }
      var unit := next.value;
      AddUnit(history[..i], unit);
      assert history[..i] + unit == history[..i + |unit|];
      assert history[i..][|unit|..] == history[i + |unit|..];
      if unit[0].role == ROLE_USER || |out| == 0 {
        out := out + [unit];
      } else {
        out := out[|out| - 1 := out[|out| - 1] + unit];
      }
      i := i + |unit|;
    }
    assert history[..|history|] == history;
    LegalNothing(history[i..]);
    return Ok(out);
  }

  // One step of the outer loop of `units`: the message at `i` with, if it makes
  // tool calls, their results.
  method UnitAt(history: seq<Message>, i: nat) returns (r: Option<seq<Message>>)
    requires i < |history|
    ensures r.Some? <==> StartsWithUnit(history[i..])
    ensures r.Some? ==> IsUnit(r.value) && i + |r.value| <= |history| && r.value == history[i..i + |r.value|]
                        && |r.value| == UnitSize(history[i])
  {
    hide AnswersSome, DistinctIds, Calls;
    var m := history[i];
    ghost var rest := history[i..];
    var unit := [m];
    if m.toolCallId != "" {
      return None;
    }
    if |m.toolCalls| == 0 {
      return Some(unit);
    }
    if m.role != ROLE_ASSISTANT {
      return None;
    }
    var ids := CollectIds(m.toolCalls);
    if ids.None? {
      return None;
    }
    var pending := ids.value;
    StartPending(m.toolCalls, pending);
    assert rest[1..][..0] == [];
    ghost var k := 0;
    while pending != {}
      invariant i + k < |history| && |unit| == k + 1
      invariant unit == [m] + rest[1..][..k]
      invariant Pending(m.toolCalls, rest[1..][..k], pending)
      decreases |pending|
    {
      if i + |unit| >= |history| {
        assert rest[1..] == rest[1..][..k];
        TooFewResults(rest, pending);
        return None;
      }
      var result := history[i + |unit|];
      assert result == rest[k + 1] == rest[1..][k];
      if result.toolCallId !in pending || result.role != ROLE_USER || |result.toolCalls| > 0 {
        WrongResult(rest, k, pending);
        return None;
      }
      NextPending(m.toolCalls, rest[1..][..k], pending, result);
      assert rest[1..][..k] + [result] == rest[1..][..k + 1];
      pending := pending - {result.toolCallId};
      unit := unit + [result];
      k := k + 1;
    }
    AllAnswered(m.toolCalls, rest[1..][..k]);
    assert UnitSize(m) == k + 1 == |unit|;
    assert rest[1..k + 1] == rest[1..][..k];
    assert unit[1..] == rest[1..][..k] && unit[1..|unit|] == unit[1..];
    return Some(unit);
  }

  lemma LegalNothing(h: seq<Message>)
    requires h == []
    ensures Legal(h)
  {
  }

  lemma TurnsOfNothing()
    ensures TurnsOf([]) == []
  {
  }

  lemma LegalSteps(h: seq<Message>)
    requires h != []
    ensures Legal(h) <==> StartsWithUnit(h) && Legal(h[UnitSize(h[0])..])
  {
  }

  // The IDs of a batch of calls, unless one is empty or occurs twice.
  method CollectIds(calls: seq<ToolCall>) returns (ids: Option<set<string>>)
    ensures ids.Some? <==> DistinctIds(calls)
    ensures ids.Some? ==> |ids.value| == |calls| && forall id :: id in ids.value <==> Calls(calls, id)
  {
    hide Calls, DistinctIds;
    var pending: set<string> := {};
    CallsNothing();
    assert calls[..0] == [];
    for i := 0 to |calls|
      invariant DistinctIds(calls[..i])
      invariant |pending| == i
      invariant forall id :: id in pending <==> Calls(calls[..i], id)
    {
      var c := calls[i];
      assert calls[..i + 1] == calls[..i] + [c];
      if c.id == "" || c.id in pending {
        RepeatedId(calls, i);
        return None;
      }
      pending := pending + {c.id};
      CallsSnoc(calls[..i], c);
    }
    assert calls[..|calls|] == calls;
    return Some(pending);
  }

  lemma CallsNothing()
    ensures DistinctIds([])
    ensures forall id :: !Calls([], id)
  {
  }

  lemma CallsSnoc(cs: seq<ToolCall>, c: ToolCall)
    ensures forall id :: Calls(cs + [c], id) <==> Calls(cs, id) || id == c.id
    ensures DistinctIds(cs) && c.id != "" && !Calls(cs, c.id) ==> DistinctIds(cs + [c])
  {
    forall id | Calls(cs, id)
      ensures Calls(cs + [c], id)
    {
      var k :| 0 <= k < |cs| && cs[k].id == id;
      assert (cs + [c])[k].id == id;
    }
    assert (cs + [c])[|cs|].id == c.id;
  }

  lemma RepeatedId(calls: seq<ToolCall>, i: nat)
    requires i < |calls|
    requires calls[i].id == "" || Calls(calls[..i], calls[i].id)
    ensures !DistinctIds(calls)
  {
  }

  // `pending` are the calls not answered by the results seen so far.
  ghost predicate Pending(calls: seq<ToolCall>, rs: seq<Message>, pending: set<string>) {
    && DistinctIds(calls)
    && AnswersSome(calls, rs)
    && |pending| + |rs| == |calls|
    && (forall id :: id in pending <==> Calls(calls, id) && forall k :: 0 <= k < |rs| ==> rs[k].toolCallId != id)
  }

  lemma StartPending(calls: seq<ToolCall>, pending: set<string>)
    requires DistinctIds(calls) && |pending| == |calls|
    requires forall id :: id in pending <==> Calls(calls, id)
    ensures Pending(calls, [], pending)
  {
  }

  lemma NextPending(calls: seq<ToolCall>, rs: seq<Message>, pending: set<string>, r: Message)
    requires Pending(calls, rs, pending)
    requires r.toolCallId in pending && r.role == ROLE_USER && r.toolCalls == []
    ensures Pending(calls, rs + [r], pending - {r.toolCallId})
  {
    hide Calls, DistinctIds;
    var more := rs + [r];
    assert forall k :: 0 <= k < |rs| ==> more[k] == rs[k];
    assert more[|rs|] == r;
  }

  lemma AllAnswered(calls: seq<ToolCall>, rs: seq<Message>)
    requires Pending(calls, rs, {})
    ensures |rs| == |calls| && AnswersSome(calls, rs) && DistinctIds(calls)
  {
  }

  lemma TooFewResults(rest: seq<Message>, pending: set<string>)
    requires rest != [] && pending != {}
    requires Pending(rest[0].toolCalls, rest[1..], pending)
    ensures !StartsWithUnit(rest)
  {
  }

  // The results inside a leading unit, one by one.
  lemma UnitAnswers(h: seq<Message>, k: nat)
    requires StartsWithUnit(h) && k < |h[0].toolCalls|
    ensures k + 1 < |h|
    ensures ResultOf(h[0].toolCalls, h[k + 1]) && h[k + 1].toolCallId != ""
    ensures forall j :: 1 <= j <= k ==> h[j].toolCallId != h[k + 1].toolCallId
  {
    var rs := h[1..UnitSize(h[0])];
    assert forall j :: 1 <= j <= k + 1 ==> h[j] == rs[j - 1];
    assert ResultOf(h[0].toolCalls, rs[k]);
  }

  lemma WrongResult(rest: seq<Message>, k: nat, pending: set<string>)
    requires k + 1 < |rest| && pending != {}
    requires Pending(rest[0].toolCalls, rest[1..][..k], pending)
    requires rest[k + 1].toolCallId !in pending || rest[k + 1].role != ROLE_USER || rest[k + 1].toolCalls != []
    ensures !StartsWithUnit(rest)
  {
    hide Calls;
    assert forall j :: 1 <= j <= k ==> rest[j] == rest[1..][..k][j - 1];
    if StartsWithUnit(rest) {
      UnitAnswers(rest, k);
      assert false;
    }
  }

  predicate IsUnit(u: seq<Message>) {
    StartsWithUnit(u) && |u| == UnitSize(u[0])
  }

  // Within a unit no turn starts after the first message.
  lemma UnitIsOneTurn(u: seq<Message>)
    requires IsUnit(u)
    ensures forall k :: 1 <= k < |u| ==> !OrdinaryUser(u[k])
  {
    if u[0].toolCalls != [] {
      var rs := u[1..UnitSize(u[0])];
      assert forall k :: 1 <= k < |u| ==> u[k] == rs[k - 1] && ResultOf(u[0].toolCalls, rs[k - 1]);
    }
  }

  lemma {:induction false} AddUnit(p: seq<Message>, u: seq<Message>)
    requires IsUnit(u)
    ensures TurnsOf(p + u) ==
            if u[0].role == ROLE_USER || p == [] then TurnsOf(p) + [u]
            else TurnsOf(p)[|TurnsOf(p)| - 1 := TurnsOf(p)[|TurnsOf(p)| - 1] + u]
    decreases |p|
  {
    hide IsUnit, OrdinaryUser, TurnsOf, NextTurn;
    UnitIsOneTurn(u);
    StartOfUnit(u);
    if p == [] {
      assert p + u == u;
      SingleTurn(u);
      TurnsOfNothing();
    } else {
      var j := NextTurn(p, 1);
      TurnsStep(p, j);
      if j < |p| {
        AddUnit(p[j..], u);
        FirstTurnStays(p, u, j);
        SomeTurn(p[j..]);
      } else {
        SingleTurn(p);
        AddUnitToOne(p, u);
      }
    }
  }

  // What follows does not change a first turn that has ended.
  lemma FirstTurnStays(p: seq<Message>, u: seq<Message>, j: nat)
    requires p != [] && j == NextTurn(p, 1) < |p|
    ensures TurnsOf(p + u) == [p[..j]] + TurnsOf(p[j..] + u)
  {
    hide OrdinaryUser, TurnsOf;
    var b := p + u;
    NextTurnIs(b, 1, j);
    TurnsStep(b, j);
    assert b[j..] == p[j..] + u && b[..j] == p[..j];
  }

  lemma StartOfUnit(u: seq<Message>)
    requires IsUnit(u)
    ensures u != [] && (OrdinaryUser(u[0]) <==> u[0].role == ROLE_USER)
  {
  }

  lemma TurnsStep(h: seq<Message>, j: nat)
    requires h != [] && j == NextTurn(h, 1)
    ensures TurnsOf(h) == [h[..j]] + TurnsOf(h[j..])
  {
  }

  lemma SingleTurn(h: seq<Message>)
    requires h != []
    requires forall k :: 1 <= k < |h| ==> !OrdinaryUser(h[k])
    ensures TurnsOf(h) == [h]
  {
    hide OrdinaryUser, TurnsOf;
    NextTurnIs(h, 1, |h|);
    TurnsStep(h, |h|);
    TurnsOfNothing();
    assert h[..|h|] == h && h[|h|..] == [];
  }

  lemma AddUnitToOne(p: seq<Message>, u: seq<Message>)
    requires p != [] && u != []
    requires forall k :: 1 <= k < |p| ==> !OrdinaryUser(p[k])
    requires forall k :: 1 <= k < |u| ==> !OrdinaryUser(u[k])
    ensures TurnsOf(p + u) == if OrdinaryUser(u[0]) then [p, u] else [p + u]
  {
    hide OrdinaryUser, TurnsOf;
    var b := p + u;
    if OrdinaryUser(u[0]) {
      NextTurnIs(b, 1, |p|);
      assert b[..|p|] == p && b[|p|..] == u;
      TurnsStep(b, |p|);
      SingleTurn(u);
    } else {
      SingleTurn(b);
    }
  }

  lemma {:induction false} NextTurnIs(h: seq<Message>, i: nat, j: nat)
    requires i <= j <= |h|
    requires forall k :: i <= k < j ==> !OrdinaryUser(h[k])
    requires j < |h| ==> OrdinaryUser(h[j])
    ensures NextTurn(h, i) == j
    decreases j - i
  {
    if i < j {
      NextTurnIs(h, i + 1, j);
    }
  }

  // ---------- facts about turns ----------

  lemma {:induction false} FlattenTurns(h: seq<Message>)
    ensures Flatten(TurnsOf(h)) == h
    decreases |h|
  {
    hide TurnsOf, OrdinaryUser;
    if h == [] {
      TurnsOfNothing();
    } else {
      var j := NextTurn(h, 1);
      TurnsStep(h, j);
      FlattenTurns(h[j..]);
      assert TurnsOf(h)[1..] == TurnsOf(h[j..]);
      assert h[..j] + h[j..] == h;
    }
  }

  // Every turn but possibly the first starts with an ordinary user message,
  // and no turn holds a second one.
  lemma {:induction false} TurnStarts(h: seq<Message>)
    ensures forall i :: 0 <= i < |TurnsOf(h)| ==> TurnsOf(h)[i] != []
    ensures forall i :: 1 <= i < |TurnsOf(h)| ==> OrdinaryUser(TurnsOf(h)[i][0])
    ensures forall i, k :: 0 <= i < |TurnsOf(h)| && 1 <= k < |TurnsOf(h)[i]| ==> !OrdinaryUser(TurnsOf(h)[i][k])
    ensures h != [] ==> TurnsOf(h)[0][0] == h[0]
    decreases |h|
  {
    if h != [] {
      var j := NextTurn(h, 1);
      var g := TurnsOf(h[j..]);
      TurnStarts(h[j..]);
      assert TurnsOf(h) == [h[..j]] + g;
      assert forall i :: 1 <= i < |TurnsOf(h)| ==> TurnsOf(h)[i] == g[i - 1];
      assert forall k :: 1 <= k < j ==> h[..j][k] == h[k];
    }
  }

  // A grouping into turns: nothing lost, and a turn starts exactly at the
  // ordinary user messages, or at the beginning.
  predicate IsGrouping(g: seq<seq<Message>>, h: seq<Message>) {
    && Flatten(g) == h
    && (forall i :: 0 <= i < |g| ==> g[i] != [])
    && (forall i :: 1 <= i < |g| ==> OrdinaryUser(g[i][0]))
    && (forall i, k :: 0 <= i < |g| && 1 <= k < |g[i]| ==> !OrdinaryUser(g[i][k]))
  }

  // There is one such grouping, and it is the one `units` computes.
  lemma {:induction false} GroupingIsUnique(g: seq<seq<Message>>, h: seq<Message>)
    requires IsGrouping(g, h)
    ensures g == TurnsOf(h)
    decreases |g|
  {
    hide OrdinaryUser, TurnsOf;
    if g == [] {
      TurnsOfNothing();
    } else {
      var n := |g[0]|;
      var rest := Flatten(g[1..]);
      assert h[..n] == g[0] && h[n..] == rest;
      if |g| > 1 {
        assert rest[0] == g[1][0];
      }
      NextTurnIs(h, 1, n);
      TurnsStep(h, n);
      GroupingIsUnique(g[1..], rest);
      assert g == [g[0]] + g[1..];
    }
  }

  // Where the k-th turn starts.
  function TurnStart(h: seq<Message>, k: nat): (j: nat)
    requires k <= |TurnsOf(h)|
    ensures j <= |h|
    decreases k
  {
    if k == 0 then 0
    else
      var n := NextTurn(h, 1);
      n + TurnStart(h[n..], k - 1)
  }

  lemma StartOfTurns(h: seq<Message>)
    ensures TurnStart(h, 0) == 0
  {
  }

  // Any suffix of the turns is a suffix of the history cut at an ordinary user
  // message; flattened and grouped again, it gives those turns.
  lemma {:induction false} SuffixOfTurns(h: seq<Message>, k: nat)
    requires k <= |TurnsOf(h)|
    ensures Flatten(TurnsOf(h)[k..]) == h[TurnStart(h, k)..]
    ensures TurnsOf(h[TurnStart(h, k)..]) == TurnsOf(h)[k..]
    ensures 0 < k < |TurnsOf(h)| ==> TurnStart(h, k) < |h| && OrdinaryUser(h[TurnStart(h, k)])
    ensures k == |TurnsOf(h)| ==> TurnStart(h, k) == |h|
    decreases k
  {
    hide OrdinaryUser, Flatten, TurnsOf;
    if k == 0 {
      assert TurnsOf(h)[0..] == TurnsOf(h);
      FlattenTurns(h);
      TurnsOfNothing();
      assert h[0..] == h;
      SomeTurn(h);
    } else {
      SomeTurn(h);
      var n := NextTurn(h, 1);
      TurnsStep(h, n);
      assert TurnsOf(h)[k..] == TurnsOf(h[n..])[k - 1..];
      SuffixOfTurns(h[n..], k - 1);
      StartStep(h, k);
      var j := TurnStart(h[n..], k - 1);
      assert h[n..][j..] == h[n + j..];
      assert j < |h[n..]| ==> h[n..][j] == h[n + j];
      assert k == 1 ==> j == 0;
      SomeTurn(h[n..]);
    }
  }

  lemma StartStep(h: seq<Message>, k: nat)
    requires 0 < k <= |TurnsOf(h)|
    ensures TurnStart(h, k) == NextTurn(h, 1) + TurnStart(h[NextTurn(h, 1)..], k - 1)
  {
  }

  lemma SomeTurn(h: seq<Message>)
    ensures TurnsOf(h) == [] <==> h == []
  {
  }

  // A legal history may be cut wherever no tool result stands.
  lemma {:induction false} LegalFrom(h: seq<Message>, j: nat)
    requires Legal(h) && j <= |h|
    requires j < |h| ==> h[j].toolCallId == ""
    ensures Legal(h[j..])
    decreases |h|
  {
    if j == 0 {
      assert h[j..] == h;
    } else {
      var n := UnitSize(h[0]);
      if j < n {
        UnitAnswers(h, j - 1);
        assert false;
      } else {
        LegalFrom(h[n..], j - n);
        assert h[n..][j - n..] == h[j..];
      }
    }
  }

  lemma {:induction false} LegalConcat(a: seq<Message>, b: seq<Message>)
    requires Legal(a)
    ensures Legal(a + b) <==> Legal(b)
    decreases |a|
  {
    if a == [] {
      assert a + b == b;
    } else {
      var n := UnitSize(a[0]);
      LegalConcat(a[n..], b);
      assert (a + b)[n..] == a[n..] + b;
      assert (a + b)[1..n] == a[1..n];
    }
  }

  // Equal but for their contents.
  predicate SameShape(a: seq<Message>, b: seq<Message>) {
    |a| == |b| && forall i :: 0 <= i < |a| ==> a[i].(content := "") == b[i].(content := "")
  }

  // Rewriting contents, as truncation does, changes neither legality nor grouping.
  lemma {:induction false} ShapeKeepsLegal(a: seq<Message>, b: seq<Message>)
    requires SameShape(a, b)
    ensures Legal(a) == Legal(b)
    decreases |a|
  {
    if a != [] {
      var n := UnitSize(a[0]);
      assert a[0].(content := "") == b[0].(content := "");
      assert a[0].toolCalls == b[0].toolCalls;
      if n <= |a| {
        ShapeKeepsLegal(a[n..], b[n..]);
        ShapeKeepsAnswers(a[0].toolCalls, a[1..n], b[1..n]);
      }
    }
  }

  lemma ShapeKeepsAnswers(calls: seq<ToolCall>, a: seq<Message>, b: seq<Message>)
    requires SameShape(a, b)
    ensures AnswersSome(calls, a) == AnswersSome(calls, b)
  {
    assert forall i :: 0 <= i < |a| ==> a[i].(content := "") == b[i].(content := "");
    assert forall i :: 0 <= i < |a| ==> a[i].toolCallId == b[i].toolCallId
                                        && ResultOf(calls, a[i]) == ResultOf(calls, b[i]);
  }

  lemma {:induction false} ShapeKeepsTurns(a: seq<Message>, b: seq<Message>)
    requires SameShape(a, b)
    ensures |TurnsOf(a)| == |TurnsOf(b)|
    ensures forall i :: 0 <= i < |TurnsOf(a)| ==> SameShape(TurnsOf(a)[i], TurnsOf(b)[i])
    decreases |a|
  {
    hide TurnsOf, OrdinaryUser;
    if a != [] {
      ShapeKeepsUsers(a, b);
      var j := NextTurn(a, 1);
      NextTurnIs(b, 1, j);
      TurnsStep(a, j);
      TurnsStep(b, j);
      ShapeOfParts(a, b, j);
      hide SameShape;
      ShapeKeepsTurns(a[j..], b[j..]);
    } else {
      TurnsOfNothing();
    }
  }

  lemma ShapeOfParts(a: seq<Message>, b: seq<Message>, j: nat)
    requires SameShape(a, b) && j <= |a|
    ensures SameShape(a[..j], b[..j]) && SameShape(a[j..], b[j..])
  {
  }

  lemma ShapeKeepsUsers(a: seq<Message>, b: seq<Message>)
    requires SameShape(a, b)
    ensures forall i :: 0 <= i < |a| ==> OrdinaryUser(a[i]) == OrdinaryUser(b[i])
  {
    assert forall i :: 0 <= i < |a| ==> a[i].(content := "") == b[i].(content := "");
  }
}
