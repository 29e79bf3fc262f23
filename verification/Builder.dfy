/** Building a model's input within a token budget
    (internal/context/builder.go `Build`, internal/context/policy.go). */
module Builder {
  import opened Basics
  import opened Schema
  import opened Estimator
  import opened Turns
  import opened Truncation

  // ---------- policy ----------

  datatype Spec = Spec(contextWindow: int, maxOutput: int)

  datatype Policy = Policy(
    defaultContextWindow: int,
    defaultReservedOutput: int,
    safetyMarginPercent: int,
    maxToolResultTokens: int)
  {
    function Resolved(): (p: Policy)
      ensures p.defaultContextWindow > 0 && p.defaultReservedOutput > 0
      ensures p.safetyMarginPercent > 0 && p.maxToolResultTokens > 0
    {
      Policy(
        if defaultContextWindow <= 0 then 32768 else defaultContextWindow,
        if defaultReservedOutput <= 0 then 4096 else defaultReservedOutput,
        if safetyMarginPercent <= 0 then 10 else safetyMarginPercent,
        if maxToolResultTokens <= 0 then 4096 else maxToolResultTokens)
    }

    function Window(m: Spec): (w: nat)
      ensures w > 0
    {
      if m.contextWindow <= 0 then Resolved().defaultContextWindow else m.contextWindow
    }

    function Output(m: Spec): (n: nat)
      ensures n > 0
    {
      if m.maxOutput <= 0 then Resolved().defaultReservedOutput else m.maxOutput
    }

    // The safety margin, rounded up.
    function Margin(window: nat): nat {
      (window * Resolved().safetyMarginPercent + 99) / 100
    }

    function InputBudget(m: Spec): int {
      Window(m) - Output(m) - Margin(Window(m))
    }
  }

  // ---------- what is built ----------

  datatype BuildResult = BuildResult(
    messages: seq<Message>,
    windowTokens: int,
    estimatedTokens: int,
    budgetTokens: int,
    totalMessages: int,
    includedMessages: int,
    omittedMessages: int,
    truncatedToolResults: int)

  function Prepared(history: seq<Message>, limit: int): (p: seq<Message>)
    ensures |p| == |history|
    ensures forall i :: 0 <= i < |p| ==> p[i] == Truncated(history[i], limit)
  {
    seq(|history|, i requires 0 <= i < |history| => Truncated(history[i], limit))
  }

  function PreparedTurns(p: Policy, history: seq<Message>): seq<seq<Message>> {
    TurnsOf(Prepared(history, p.Resolved().maxToolResultTokens))
  }

  // The cost of the system message and the turns from the k-th on.
  function SuffixTokens(system: Message, turns: seq<seq<Message>>, k: nat): nat
    requires k <= |turns|
  {
    MessageTokens(system) + MessagesTokens(Flatten(turns[k..]))
  }

  predicate SuffixFits(system: Message, turns: seq<seq<Message>>, k: nat, budget: int)
    requires k <= |turns|
  {
    SuffixTokens(system, turns, k) <= budget
  }

  // Where the longest suffix of whole turns within the budget starts.
  function Start(system: Message, turns: seq<seq<Message>>, budget: int): (k: nat)
    ensures k <= |turns|
    ensures k < |turns| ==> SuffixFits(system, turns, k, budget)
    decreases |turns|
  {
    if turns == [] || SuffixFits(system, turns, 0, budget) then 0
    else
      var k := 1 + Start(system, turns[1..], budget);
      assert turns[k..] == turns[1..][k - 1..];
      k
  }

  function CountTooLong(history: seq<Message>, limit: int): nat {
    if history == [] then 0
    else (if TooLong(history[0], limit) then 1 else 0) + CountTooLong(history[1..], limit)
  }

  // Build succeeds on these inputs and no others: a positive budget, a legal
  // history, and room for the system message and the last turn.
  predicate Buildable(p: Policy, system: Message, history: seq<Message>, m: Spec) {
    var turns, budget := PreparedTurns(p, history), p.InputBudget(m);
    && budget > 0
    && Legal(history)
    && SuffixFits(system, turns, if turns == [] then 0 else |turns| - 1, budget)
  }

  function View(p: Policy, system: Message, history: seq<Message>, m: Spec): BuildResult {
    var limit := p.Resolved().maxToolResultTokens;
    var turns, budget := PreparedTurns(p, history), p.InputBudget(m);
    var k := Start(system, turns, budget);
    var messages := [system] + Flatten(turns[k..]);
    BuildResult(
      messages, p.Window(m), MessagesTokens(messages), budget,
      |history| + 1, |messages|, |history| + 1 - |messages|,
      CountTooLong(history[TurnStart(Prepared(history, limit), k)..], limit))
  }

  // ---------- monotonicity ----------

  lemma {:induction false} FlattenConcat(a: seq<seq<Message>>, b: seq<seq<Message>>)
    ensures Flatten(a + b) == Flatten(a) + Flatten(b)
  {
    if a == [] {
      assert a + b == b;
    } else {
      assert (a + b)[1..] == a[1..] + b;
      FlattenConcat(a[1..], b);
    }
  }

  lemma FlattenOne(g: seq<Message>)
    ensures Flatten([g]) == g
  {
    assert [g][1..] == [];
  }

  // The cost of one more turn at the front of a suffix.
  lemma SuffixCost(turns: seq<seq<Message>>, k: nat)
    requires k < |turns|
    ensures MessagesTokens(Flatten(turns[k..])) == MessagesTokens(turns[k]) + MessagesTokens(Flatten(turns[k + 1..]))
    ensures Flatten(turns[k..]) == turns[k] + Flatten(turns[k + 1..])
  {
    hide MessagesTokens;
    assert turns[k..][0] == turns[k] && turns[k..][1..] == turns[k + 1..];
    MessagesTokensConcat(turns[k], Flatten(turns[k + 1..]));
  }

  lemma {:induction false} ShorterSuffixFits(system: Message, turns: seq<seq<Message>>, j: nat, k: nat, budget: int)
    requires j <= k <= |turns|
    requires SuffixFits(system, turns, j, budget)
    ensures SuffixFits(system, turns, k, budget)
    decreases k - j
  {
    hide MessagesTokens, SuffixTokens;
    if j < k {
      OneMoreTurn(system, turns, j);
      ShorterSuffixFits(system, turns, j + 1, k, budget);
    }
  }

  // `Start` is the only place where the suffix fits and one turn more does not.
  lemma {:induction false} StartIs(system: Message, turns: seq<seq<Message>>, k: nat, budget: int)
    requires k <= |turns|
    requires k < |turns| ==> SuffixFits(system, turns, k, budget)
    requires k > 0 ==> !SuffixFits(system, turns, k - 1, budget)
    ensures Start(system, turns, budget) == k
    decreases |turns|
  {
    if k > 0 {
      if SuffixFits(system, turns, 0, budget) {
        ShorterSuffixFits(system, turns, 0, k - 1, budget);
      }
      hide SuffixFits;
      ShiftFits(system, turns, k, budget);
      if k > 1 {
        ShiftFits(system, turns, k - 1, budget);
      }
      StartIs(system, turns[1..], k - 1, budget);
    }
  }

  lemma ShiftFits(system: Message, turns: seq<seq<Message>>, k: nat, budget: int)
    requires 0 < k <= |turns|
    ensures SuffixFits(system, turns[1..], k - 1, budget) == SuffixFits(system, turns, k, budget)
  {
    assert turns[1..][k - 1..] == turns[k..];
  }

  lemma {:induction false} StartIsLongest(system: Message, turns: seq<seq<Message>>, budget: int)
    ensures forall j :: 0 <= j < Start(system, turns, budget) ==> !SuffixFits(system, turns, j, budget)
    decreases |turns|
  {
    if turns != [] && !SuffixFits(system, turns, 0, budget) {
      StartIsLongest(system, turns[1..], budget);
      forall j | 0 < j < Start(system, turns, budget)
        ensures !SuffixFits(system, turns, j, budget)
      {
        ShiftFits(system, turns, j, budget);
      }
    }
  }

  // ---------- the promise ----------

  // A built view is the system message and a suffix of whole turns that fits,
  // no longer suffix fits, and the suffix is empty only if there are no turns.
  lemma ViewIsLongestSuffix(p: Policy, system: Message, history: seq<Message>, m: Spec)
    ensures Buildable(p, system, history, m) ==>
            var turns, view := PreparedTurns(p, history), View(p, system, history, m);
            var k := Start(system, turns, view.budgetTokens);
            && view.messages == [system] + Flatten(turns[k..])
            && view.estimatedTokens == MessagesTokens(view.messages) == SuffixTokens(system, turns, k)
            && view.estimatedTokens <= view.budgetTokens
            && (turns != [] ==> k < |turns|)
            && (forall j :: 0 <= j < k ==> SuffixTokens(system, turns, j) > view.budgetTokens)
  {
    hide MessagesTokens, MessageTokens, Flatten, TurnsOf, Prepared, Legal, SuffixTokens, Start;
    var turns, budget := PreparedTurns(p, history), p.InputBudget(m);
    StartIsLongest(system, turns, budget);
    var k := Start(system, turns, budget);
    assert Buildable(p, system, history, m) && turns != [] ==> SuffixFits(system, turns, |turns| - 1, budget);
    forall j | 0 <= j < k
      ensures SuffixTokens(system, turns, j) > budget
    {
      assert !SuffixFits(system, turns, j, budget);
    }
    ViewTokens(system, Flatten(turns[k..]));
    SuffixTokensIs(system, turns, k);
  }

  lemma SuffixTokensIs(system: Message, turns: seq<seq<Message>>, k: nat)
    requires k <= |turns|
    ensures SuffixTokens(system, turns, k) == MessageTokens(system) + MessagesTokens(Flatten(turns[k..]))
  {
  }

  lemma ViewTokens(system: Message, ms: seq<Message>)
    ensures MessagesTokens([system] + ms) == MessageTokens(system) + MessagesTokens(ms)
  {
    assert ([system] + ms)[1..] == ms;
  }

  // The messages of a view after the first are again a legal history, with the
  // same turns: nothing was cut in half.
  lemma ViewIsLegal(p: Policy, system: Message, history: seq<Message>, m: Spec)
    ensures Buildable(p, system, history, m) ==>
            var tail := View(p, system, history, m).messages[1..];
            var turns := PreparedTurns(p, history);
            Legal(tail) && TurnsOf(tail) == turns[Start(system, turns, p.InputBudget(m))..]
  {
    hide MessagesTokens, MessageTokens, Flatten, TurnsOf, Legal, OrdinaryUser, Truncated, CountTooLong;
    if Buildable(p, system, history, m) {
      var h := Prepared(history, p.Resolved().maxToolResultTokens);
      var turns := TurnsOf(h);
      var k := Start(system, turns, p.InputBudget(m));
      PreparedShape(history, p.Resolved().maxToolResultTokens);
      ShapeKeepsLegal(history, h);
      SuffixOfTurns(h, k);
      CutIsHead(h, k);
      LegalFrom(h, TurnStart(h, k));
      assert View(p, system, history, m).messages[1..] == Flatten(turns[k..]);
    }
  }

  lemma CutIsHead(h: seq<Message>, k: nat)
    requires k <= |TurnsOf(h)| && Legal(h)
    requires 0 < k < |TurnsOf(h)| ==> TurnStart(h, k) < |h| && OrdinaryUser(h[TurnStart(h, k)])
    requires k == |TurnsOf(h)| ==> TurnStart(h, k) == |h|
    ensures TurnStart(h, k) < |h| ==> h[TurnStart(h, k)].toolCallId == ""
  {
  }

  lemma PreparedShape(history: seq<Message>, limit: int)
    ensures SameShape(history, Prepared(history, limit))
  {
  }

  // The tool results above the limit, by position.
  function LongResults(h: seq<Message>, limit: int): set<nat> {
    set i: nat | i < |h| && h[i].toolCallId != "" && MessageTokens(h[i]) > limit
  }

  // A result shows the last messages of the history behind the system message,
  // each as it should appear, and counts those it had to shorten.
  ghost predicate Shows(system: Message, history: seq<Message>, limit: int, r: BuildResult) {
    && 0 <= r.omittedMessages <= |history|
    && r.totalMessages == |history| + 1 && r.includedMessages == r.totalMessages - r.omittedMessages
    && |r.messages| == r.includedMessages && r.messages[0] == system
    && (forall i :: r.omittedMessages <= i < |history| ==>
          ShownAs(history[i], r.messages[1 + i - r.omittedMessages], limit))
    && r.truncatedToolResults == |LongResults(history[r.omittedMessages..], limit)|
  }

  function OrDefault(x: int, default: nat): nat {
    if x > 0 then x else default
  }

  function ToolResultLimit(p: Policy): nat {
    OrDefault(p.maxToolResultTokens, 4096)
  }

  // The input budget is what the window leaves beside the output and a safety
  // margin: the least number of tokens that is the percentage of the window.
  predicate Budgets(p: Policy, m: Spec, window: int, budget: int) {
    && window == OrDefault(m.contextWindow, OrDefault(p.defaultContextWindow, 32768))
    && var margin := window - OrDefault(m.maxOutput, OrDefault(p.defaultReservedOutput, 4096)) - budget;
       100 * (margin - 1) < window * OrDefault(p.safetyMarginPercent, 10) <= 100 * margin
  }

  lemma WindowBudgets(p: Policy, m: Spec)
    ensures Budgets(p, m, p.Window(m), p.InputBudget(m))
  {
    var percent := OrDefault(p.safetyMarginPercent, 10);
    assert p.Margin(p.Window(m)) == (p.Window(m) * percent + 99) / 100;
  }

  lemma OneMoreLong(h: seq<Message>, m: Message, limit: int)
    ensures |LongResults(h + [m], limit)| == |LongResults(h, limit)| + (if TooLong(m, limit) then 1 else 0)
  {
    hide MessageTokens;
    assert LongResults(h + [m], limit) == LongResults(h, limit) + (if TooLong(m, limit) then {|h|} else {});
  }

  lemma {:induction false} CountIs(h: seq<Message>, limit: int)
    ensures CountTooLong(h, limit) == |LongResults(h, limit)|
    decreases |h|
  {
    hide TooLong, LongResults, CountTooLong;
    if h == [] {
      NothingCounted(limit);
      NothingLong(limit);
    } else {
      var n := |h| - 1;
      assert h == h[..n] + [h[n]] && h[0..n] == h[..n] && h[0..n + 1] == h;
      CountOne(h, 0, n, limit);
      CountIs(h[..n], limit);
      OneMoreLong(h[..n], h[n], limit);
    }
  }

  lemma LongAre(h: seq<Message>, limit: int)
    ensures LongResults(h, limit) == set i: nat | i < |h| && TooLong(h[i], limit)
  {
    hide MessageTokens;
  }

  lemma NothingLong(limit: int)
    ensures LongResults([], limit) == {}
  {
  }

  lemma PreparedIsShown(history: seq<Message>, limit: int)
    ensures forall i :: 0 <= i < |history| ==> ShownAs(history[i], Prepared(history, limit)[i], limit)
  {
    hide Truncated, ShownAs;
    forall i | 0 <= i < |history|
      ensures ShownAs(history[i], Prepared(history, limit)[i], limit)
    {
      TruncatedIsShown(history[i], limit);
    }
  }

  // The view in terms of the prepared history, cut where its first turn starts.
  lemma ViewCut(p: Policy, system: Message, history: seq<Message>, m: Spec) returns (start: nat)
    ensures start <= |history|
    ensures var view, limit := View(p, system, history, m), ToolResultLimit(p);
            && view.messages == [system] + Prepared(history, limit)[start..]
            && view.totalMessages == |history| + 1
            && view.includedMessages == |view.messages|
            && view.omittedMessages == |history| + 1 - |view.messages|
            && view.truncatedToolResults == CountTooLong(history[start..], limit)
  {
    hide MessagesTokens, Flatten, TurnsOf, Truncated, CountTooLong, Start, TurnStart;
    var h := Prepared(history, ToolResultLimit(p));
    var k := Start(system, TurnsOf(h), p.InputBudget(m));
    start := TurnStart(h, k);
    SuffixOfTurns(h, k);
  }

  lemma ViewShows(p: Policy, system: Message, history: seq<Message>, m: Spec)
    ensures Shows(system, history, ToolResultLimit(p), View(p, system, history, m))
  {
    hide View, CountTooLong, LongResults, ShownAs, Prepared;
    var limit := ToolResultLimit(p);
    var start := ViewCut(p, system, history, m);
    CountIs(history[start..], limit);
    PreparedIsShown(history, limit);
  }

  // No tool result of a view is above the limit, unless the marker alone would be.
  lemma ShownResultsFit(system: Message, history: seq<Message>, limit: int, r: BuildResult, i: nat)
    requires Shows(system, history, limit, r)
    requires 1 <= i < |r.messages| && r.messages[i].toolCallId != ""
    ensures MessageTokens(r.messages[i]) <= limit || MessageTokens(r.messages[i].(content := MARKER)) > limit
  {
    hide ShownAs, LongResults, MARKER, MessageTokens;
    var k := r.omittedMessages + i - 1;
    assert ShownAs(history[k], r.messages[1 + k - r.omittedMessages], limit);
    ShownIsWithin(history[k], r.messages[i], limit);
  }

  // ---------- the method ----------

  method Build(p: Policy, system: Message, history: seq<Message>, m: Spec)
    returns (r: Result<BuildResult, ChainError>)
    ensures r.Ok? <==> Buildable(p, system, history, m)
    ensures r.Ok? ==> r.value == View(p, system, history, m)
    ensures r.Ok? ==> Shows(system, history, ToolResultLimit(p), r.value)
    ensures r.Ok? ==> Budgets(p, m, r.value.windowTokens, r.value.budgetTokens)
    ensures r == Err(ToolChain) <==> p.InputBudget(m) > 0 && MessageTokens(system) <= p.InputBudget(m) && !Legal(history)
  {
    hide MessagesTokens, MessageTokens, Flatten, TurnsOf, Legal, OrdinaryUser, Truncated, TooLong, Start, SuffixFits,
         CountTooLong, TurnStart, SuffixTokens, Shows, Budgets;
    var window, budget := p.Window(m), p.InputBudget(m);
    var limit := p.Resolved().maxToolResultTokens;
    ghost var turns := PreparedTurns(p, history);
    if budget <= 0 {
      return Err(BudgetExceeded);
    }
    var used := EstimateMessage(system);
    if used > budget {
      SystemTooLong(system, turns, budget);
      return Err(BudgetExceeded);
    }
    var copied, truncated := Prepare(history, limit);
    PreparedShape(history, limit);
    ShapeKeepsLegal(history, copied);
    var units := Units(copied);
    if units.Err? {
      return Err(ToolChain);
    }
    var groups := units.value;
    TurnStarts(copied);
    var selection := Select(system, groups, used, budget);
    if selection.Err? {
      return Err(BudgetExceeded);
    }
    var (selected, tokens) := selection.value;
    ghost var k := Start(system, groups, budget);
    var messages, count := Assemble(system, groups, selected, truncated, k, copied, history, limit);
    ViewTokens(system, Flatten(groups[k..]));
    SuffixTokensIs(system, groups, k);
    ViewShows(p, system, history, m);
    WindowBudgets(p, m);
    return Ok(BuildResult(messages, window, tokens, budget, |history| + 1, |messages|,
                          |history| + 1 - |messages|, count));
  }

  lemma SystemTooLong(system: Message, turns: seq<seq<Message>>, budget: int)
    requires MessageTokens(system) > budget
    ensures forall k :: 0 <= k <= |turns| ==> !SuffixFits(system, turns, k, budget)
  {
  }

  // The copied history with long tool results truncated, and which they are.
  method Prepare(history: seq<Message>, limit: int) returns (copied: seq<Message>, truncated: set<nat>)
    ensures copied == Prepared(history, limit)
    ensures truncated == set i: nat | i < |history| && TooLong(history[i], limit)
    ensures truncated == LongResults(history, limit)
    ensures forall i :: 0 <= i < |history| ==> ShownAs(history[i], copied[i], limit)
  {
    hide TooLong, Truncated, ShownAs, MessageTokens;
    copied := history;
    truncated := {};
    for i := 0 to |history|
      invariant |copied| == |history|
      invariant forall j :: 0 <= j < i ==> copied[j] == Truncated(history[j], limit)
      invariant forall j :: i <= j < |history| ==> copied[j] == history[j]
      invariant truncated == set j: nat | j < i && TooLong(history[j], limit)
    {
      var best, changed := Truncate(copied[i], limit);
      copied := copied[i := best];
      if changed {
        truncated := truncated + {i};
      }
    }
    assert copied == Prepared(history, limit);
    LongAre(history, limit);
    PreparedIsShown(history, limit);
  }

  predicate Anchor(g: seq<Message>)
    requires g != []
  {
    OrdinaryUser(g[0])
  }

  ghost predicate IsSuffix(selected: set<int>, k: int, n: int) {
    forall i :: i in selected <==> k <= i < n
  }

  // The hard anchor and the greedy loop.
  method Select(system: Message, groups: seq<seq<Message>>, systemTokens: nat, budget: int)
    returns (r: Result<(set<int>, nat), ChainError>)
    requires systemTokens == MessageTokens(system) <= budget
    requires forall i :: 0 <= i < |groups| ==> groups[i] != []
    requires forall i :: 1 <= i < |groups| ==> OrdinaryUser(groups[i][0])
    ensures r.Ok? <==> SuffixFits(system, groups, if groups == [] then 0 else |groups| - 1, budget)
    ensures r.Ok? ==> IsSuffix(r.value.0, Start(system, groups, budget), |groups|)
                      && r.value.1 == SuffixTokens(system, groups, Start(system, groups, budget))
  {
    hide MessagesTokens, MessageTokens, Flatten, OrdinaryUser, Start, SuffixTokens;
    var n := |groups|;
    NoTurnTokens(system, groups);
    var anchor := LastAnchor(groups);
    var used := systemTokens;
    var selected: set<int> := {};
    ghost var k := n;
    if anchor >= 0 {
      var cost := EstimateMessages(groups[anchor]);
      OneMoreTurn(system, groups, anchor);
      used := used + cost;
      selected := selected + {anchor};
      k := anchor;
    }
    if used > budget {
      return Err(BudgetExceeded);
    }
    var i := n - 1;
    while i >= 0
      invariant -1 <= i < n && 0 <= k <= n
      invariant k == i + 1 || (i == n - 1 && k == i && anchor == k)
      invariant IsSuffix(selected, k, n)
      invariant used == SuffixTokens(system, groups, k) <= budget
    {
      if i !in selected {
        var cost := EstimateMessages(groups[i]);
        OneMoreTurn(system, groups, i);
        if used + cost > budget {
          if i == n - 1 {
            return Err(BudgetExceeded);
          }
          break;
        }
        selected := selected + {i};
        used := used + cost;
        k := i;
      }
      i := i - 1;
    }
    if n > 0 {
      ShorterSuffixFits(system, groups, k, n - 1, budget);
    }
    StartIs(system, groups, k, budget);
    return Ok((selected, used));
  }

  lemma NoTurnTokens(system: Message, groups: seq<seq<Message>>)
    ensures SuffixTokens(system, groups, |groups|) == MessageTokens(system)
  {
  }

  lemma OneMoreTurn(system: Message, groups: seq<seq<Message>>, k: nat)
    requires k < |groups|
    ensures SuffixTokens(system, groups, k) == SuffixTokens(system, groups, k + 1) + MessagesTokens(groups[k])
  {
    hide MessagesTokens, Flatten, MessageTokens;
    SuffixCost(groups, k);
  }

  // The search for the latest ordinary user request. Turns being turns, it is
  // the last group, or there is only one and it has none.
  method LastAnchor(groups: seq<seq<Message>>) returns (anchor: int)
    requires forall i :: 0 <= i < |groups| ==> groups[i] != []
    requires forall i :: 1 <= i < |groups| ==> OrdinaryUser(groups[i][0])
    ensures anchor == -1 || (anchor == |groups| - 1 && anchor >= 0)
    ensures anchor == -1 ==> |groups| <= 1
  {
    hide OrdinaryUser;
    assert |groups| > 1 ==> Anchor(groups[|groups| - 1]);
    var i := |groups| - 1;
    while i >= 0
      invariant -1 <= i < |groups|
      invariant forall j :: i < j < |groups| ==> !Anchor(groups[j])
    {
      if Anchor(groups[i]) {
        return i;
      }
      i := i - 1;
    }
    return -1;
  }

  method Assemble(system: Message, groups: seq<seq<Message>>, selected: set<int>, truncated: set<nat>, ghost k: nat,
                  ghost copied: seq<Message>, ghost history: seq<Message>, ghost limit: int)
    returns (messages: seq<Message>, count: nat)
    requires groups == TurnsOf(copied) && |copied| == |history| && k <= |groups|
    requires IsSuffix(selected, k, |groups|)
    requires truncated == set i: nat | i < |history| && TooLong(history[i], limit)
    ensures messages == [system] + Flatten(groups[k..])
    ensures count == CountTooLong(history[TurnStart(copied, k)..], limit)
  {
    hide Flatten, TurnsOf, TooLong, CountTooLong, TurnStart;
    messages := [system];
    count := 0;
    var offset := 0;
    NothingCounted(limit);
    StartOfTurns(copied);
    for i := 0 to |groups|
      invariant offset == TurnStart(copied, i) <= |history|
      invariant i > k ==> TurnStart(copied, k) <= offset
      invariant messages == [system] + (if i <= k then [] else Flatten(groups[k..i]))
      invariant count == if i <= k then 0 else CountTooLong(history[TurnStart(copied, k)..offset], limit)
    {
      var g := groups[i];
      NextStart(copied, i);
      if i in selected {
        StartsGrow(copied, k, i);
        AddGroup(groups, k, i);
        messages := messages + g;
        ghost var before := count;
        EmptyCount(history, offset, limit);
        for j := 0 to |g|
          invariant count == before + CountTooLong(history[offset..offset + j], limit)
        {
          CountOne(history, offset, j, limit);
          if offset + j in truncated {
            count := count + 1;
          }
        }
        CountConcat(history, TurnStart(copied, k), offset, offset + |g|, limit);
      }
      offset := offset + |g|;
    }
    EndOfTurns(copied);
    assert groups[k..|groups|] == groups[k..];
    assert history[TurnStart(copied, k)..|history|] == history[TurnStart(copied, k)..];
    if k == |groups| {
      EmptyCount(history, |history|, limit);
      FlattenNone(groups);
    }
  }

  lemma NothingCounted(limit: int)
    ensures Flatten([]) == [] && CountTooLong([], limit) == 0
  {
  }

  lemma FlattenNone(groups: seq<seq<Message>>)
    ensures Flatten(groups[|groups|..]) == []
  {
  }

  lemma EmptyCount(history: seq<Message>, i: nat, limit: int)
    requires i <= |history|
    ensures CountTooLong(history[i..i], limit) == 0
  {
  }

  lemma EndOfTurns(h: seq<Message>)
    ensures TurnStart(h, |TurnsOf(h)|) == |h|
  {
    SuffixOfTurns(h, |TurnsOf(h)|);
  }

  lemma {:induction false} NextStart(h: seq<Message>, k: nat)
    requires k < |TurnsOf(h)|
    ensures TurnStart(h, k + 1) == TurnStart(h, k) + |TurnsOf(h)[k]|
    decreases k
  {
    hide OrdinaryUser, TurnsOf;
    SomeTurn(h);
    var n := NextTurn(h, 1);
    TurnsStep(h, n);
    StartStep(h, k + 1);
    if k == 0 {
      StartOfTurns(h);
      StartOfTurns(h[n..]);
    } else {
      StartStep(h, k);
      NextStart(h[n..], k - 1);
    }
  }

  lemma {:induction false} StartsGrow(h: seq<Message>, j: nat, k: nat)
    requires j <= k <= |TurnsOf(h)|
    ensures TurnStart(h, j) <= TurnStart(h, k)
    decreases k - j
  {
    hide TurnsOf, TurnStart;
    if j < k {
      NextStart(h, k - 1);
      StartsGrow(h, j, k - 1);
    }
  }

  lemma AddGroup(groups: seq<seq<Message>>, k: nat, i: nat)
    requires k <= i < |groups|
    ensures Flatten(groups[k..i + 1]) == Flatten(groups[k..i]) + groups[i]
    ensures k == i ==> Flatten(groups[k..i]) == []
  {
    assert groups[k..i + 1] == groups[k..i] + [groups[i]];
    FlattenConcat(groups[k..i], [groups[i]]);
    FlattenOne(groups[i]);
  }

  lemma {:induction false} CountSplit(a: seq<Message>, b: seq<Message>, limit: int)
    ensures CountTooLong(a + b, limit) == CountTooLong(a, limit) + CountTooLong(b, limit)
  {
    hide TooLong;
    if a == [] {
      assert a + b == b;
    } else {
      assert (a + b)[1..] == a[1..] + b;
      CountSplit(a[1..], b, limit);
    }
  }

  lemma CountConcat(history: seq<Message>, i: nat, j: nat, k: nat, limit: int)
    requires i <= j <= k <= |history|
    ensures CountTooLong(history[i..k], limit)
            == CountTooLong(history[i..j], limit) + CountTooLong(history[j..k], limit)
  {
    hide TooLong, CountTooLong;
    assert history[i..k] == history[i..j] + history[j..k];
    CountSplit(history[i..j], history[j..k], limit);
  }

  lemma CountOne(history: seq<Message>, i: nat, j: nat, limit: int)
    requires i + j < |history|
    ensures CountTooLong(history[i..i + j + 1], limit)
            == CountTooLong(history[i..i + j], limit) + (if TooLong(history[i + j], limit) then 1 else 0)
    ensures CountTooLong(history[i..i], limit) == 0
  {
    hide TooLong;
    CountConcat(history, i, i + j, i + j + 1, limit);
    var one := history[i + j..i + j + 1];
    assert one == [history[i + j]] && one[1..] == [];
  }
}
