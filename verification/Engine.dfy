/** The engine around the context builder (internal/engine/context.go,
    internal/engine/loop.go): budgets with tool schemas, the one conservative
    retry, and the messages a turn adds. */
module Engine {
  import opened Basics
  import opened Schema
  import opened Estimator
  import opened Turns
  import opened Truncation
  import opened Builder
  import Strings

  // ---------- tool schemas take input space ----------

  // `tools` is the serialized tool list.
  function Overhead(tools: string): nat {
    MessageTokens(Message("", tools, [], "", None))
  }

  // The specification under which the inner Build runs.
  function Adjusted(p: Policy, spec: Spec, tools: string): Spec {
    var window, input := p.Window(spec), p.InputBudget(spec);
    Spec(window, window - p.Margin(window) - input + Overhead(tools))
  }

  // The arithmetic cancels: the inner budget is the input budget less the overhead.
  lemma AdjustedBudget(p: Policy, spec: Spec, tools: string)
    ensures p.Window(Adjusted(p, spec, tools)) == p.Window(spec)
    ensures p.InputBudget(Adjusted(p, spec, tools)) == p.InputBudget(spec) - Overhead(tools)
  {
    hide MessageTokens;
  }

  lemma ShowsTheSame(p: Policy, system: Message, history: seq<Message>, r: BuildResult, estimated: int, budget: int)
    requires Shows(system, history, ToolResultLimit(p), r)
    ensures Shows(system, history, ToolResultLimit(p), r.(estimatedTokens := estimated, budgetTokens := budget))
  {
    hide ShownAs, LongResults;
  }

  method BuildContext(p: Policy, system: Message, history: seq<Message>, tools: string, spec: Spec)
    returns (r: Result<BuildResult, ChainError>)
    ensures r.Ok? <==> Buildable(p, system, history, Adjusted(p, spec, tools))
    ensures r.Ok? ==>
              var view := View(p, system, history, Adjusted(p, spec, tools));
              && r.value.messages == view.messages
              && r.value.estimatedTokens == MessagesTokens(view.messages) + Overhead(tools)
              && r.value.estimatedTokens <= r.value.budgetTokens == p.InputBudget(spec)
              && r.value.windowTokens == p.Window(spec)
              && r.value.includedMessages + r.value.omittedMessages == r.value.totalMessages == |history| + 1
    ensures r.Ok? ==> Shows(system, history, ToolResultLimit(p), r.value)
  {
    hide MessageTokens, MessagesTokens, Flatten, TurnsOf, Legal, Start, Prepared, CountTooLong, Shows;
    AdjustedBudget(p, spec, tools);
    var overhead := EstimateMessage(Message("", tools, [], "", None));
    var window, input := p.Window(spec), p.InputBudget(spec);
    var adjusted := Spec(window, window - p.Margin(window) - input + overhead);
    r := Build(p, system, history, adjusted);
    if r.Err? {
      return;
    }
    ViewIsLongestSuffix(p, system, history, adjusted);
    ShowsTheSame(p, system, history, r.value, r.value.estimatedTokens + overhead, input);
    return Ok(r.value.(estimatedTokens := r.value.estimatedTokens + overhead, budgetTokens := input));
  }

  // ---------- the retry ----------

  datatype Reply = Answer(message: Message) | NoAnswer | ContextLimit | Failed

  datatype GenerateError = Canceled | NoResponse | ProviderFailed | ContextLimited | Unbuildable(chain: ChainError)

  function RetrySpec(p: Policy, spec: Spec): Spec {
    spec.(contextWindow := p.Window(spec) * 3 / 4)
  }

  // What the caller gets from the provider's last reply.
  function Outcome(reply: Reply): Result<Message, GenerateError> {
    match reply
    case Answer(m) => Ok(m)
    case NoAnswer => Err(NoResponse)
    case ContextLimit => Err(ContextLimited)
    case Failed => Err(ProviderFailed)
  }

  // `views` are the inputs the provider saw: one, or two when it reported that
  // the first was too long for its context. Every such report is followed by a
  // retry unless its view cannot be built or the context is canceled.
  method Generate(p: Policy, system: Message, history: seq<Message>, view: seq<Message>, tools: string, spec: Spec,
                  first: Reply, second: Reply, canceled: bool, canceledRetry: bool)
    returns (r: Result<Message, GenerateError>, views: seq<seq<Message>>)
    ensures canceled ==> r == Err(Canceled) && views == []
    ensures !canceled && !first.ContextLimit? ==> r == Outcome(first) && views == [view]
    ensures !canceled && first.ContextLimit? ==>
              var retry := Adjusted(p, RetrySpec(p, spec), tools);
              if !Buildable(p, system, history, retry) then r.Err? && r.error.Unbuildable? && views == [view]
              else if canceledRetry then r == Err(Canceled) && views == [view]
              else r == Outcome(second) && views == [view, View(p, system, history, retry).messages]
    // A message is returned exactly when the last view sent was answered with it.
    ensures r.Ok? <==> (|views| == 1 && first.Answer?) || (|views| == 2 && second.Answer?)
    ensures r.Ok? ==> (if |views| == 1 then first else second) == Answer(r.value)
  {
    hide MessageTokens, MessagesTokens, View, Buildable, Adjusted;
    if canceled {
      return Err(Canceled), [];
    }
    views := [view];
    var reply := first;
    if reply.ContextLimit? {
      var built := BuildContext(p, system, history, tools, RetrySpec(p, spec));
      if built.Err? {
        return Err(Unbuildable(built.error)), views;
      }
      if canceledRetry {
        return Err(Canceled), views;
      }
      views := views + [built.value.messages];
      reply := second;
    }
    match reply
    case Answer(m) => return Ok(m), views;
    case NoAnswer => return Err(NoResponse), views;
    case ContextLimit => return Err(ContextLimited), views;
    case Failed => return Err(ProviderFailed), views;
  }

  lemma MarginGrowth(percent: nat, w: nat, v: nat)
    requires v <= w
    requires percent <= 100
    ensures (w * percent + 99) / 100 - (v * percent + 99) / 100 <= w - v
  {
    assert w * percent == v * percent + (w - v) * percent;
    assert (w - v) * percent <= (w - v) * 100;
  }

  lemma MarginBelowWindow(percent: nat, w: nat)
    requires (w * percent + 99) / 100 < w
    ensures percent < 100
  {
    assert percent >= 100 ==> w * percent >= w * 100;
  }

  // If the first view could be built at all, three quarters of the window give
  // no more input budget. Neither a tiny window, which would fall back to the
  // default, nor a margin over 100 percent can get that far.
  lemma RetryBudget(p: Policy, spec: Spec)
    requires p.InputBudget(spec) > 0
    ensures p.InputBudget(RetrySpec(p, spec)) <= p.InputBudget(spec)
  {
    var w, percent := p.Window(spec), p.Resolved().safetyMarginPercent;
    MarginBelowWindow(percent, w);
    MarginGrowth(percent, w, w * 3 / 4);
  }

  // A smaller budget starts the suffix no earlier.
  lemma StartsLater(system: Message, turns: seq<seq<Message>>, less: int, more: int)
    requires less <= more
    ensures Start(system, turns, more) <= Start(system, turns, less)
  {
    hide SuffixTokens, Start;
    StartIsLongest(system, turns, more);
    var k := Start(system, turns, less);
    assert k < |turns| ==> SuffixFits(system, turns, k, more);
  }

  // With tools at least as large, the retry shows a suffix of the turns the
  // first view showed.
  lemma RetryIsSuffix(p: Policy, system: Message, history: seq<Message>, tools: string, retryTools: string, spec: Spec)
    requires Overhead(tools) <= Overhead(retryTools)
    ensures Buildable(p, system, history, Adjusted(p, spec, tools))
            && Buildable(p, system, history, Adjusted(p, RetrySpec(p, spec), retryTools)) ==>
            var first := View(p, system, history, Adjusted(p, spec, tools)).messages;
            var retry := View(p, system, history, Adjusted(p, RetrySpec(p, spec), retryTools)).messages;
            var turns := PreparedTurns(p, history);
            exists j, k :: 0 <= j <= k <= |turns| && first == [system] + Flatten(turns[j..])
                           && retry == [system] + Flatten(turns[k..])
  {
    hide MessageTokens, MessagesTokens, Flatten, TurnsOf, Legal, Start, Prepared, CountTooLong, SuffixTokens;
    AdjustedBudget(p, spec, tools);
    AdjustedBudget(p, RetrySpec(p, spec), retryTools);
    if !Buildable(p, system, history, Adjusted(p, spec, tools)) {
      return;
    }
    RetryBudget(p, spec);
    var turns := PreparedTurns(p, history);
    var more, less := p.InputBudget(Adjusted(p, spec, tools)), p.InputBudget(Adjusted(p, RetrySpec(p, spec), retryTools));
    StartsLater(system, turns, less, more);
    var j, k := Start(system, turns, more), Start(system, turns, less);
    assert View(p, system, history, Adjusted(p, spec, tools)).messages == [system] + Flatten(turns[j..]);
    assert View(p, system, history, Adjusted(p, RetrySpec(p, spec), retryTools)).messages == [system] + Flatten(turns[k..]);
  }

  // ---------- the retry of the thinking phase ----------

  // The thinking phase builds its first view with the tools and retries
  // without them: no tools are serialized as null.
  const NO_TOOLS := "null"

  function FirstSpec(p: Policy, spec: Spec, tools: string): Spec {
    Adjusted(p, spec, tools)
  }

  function ThinkingRetrySpec(p: Policy, spec: Spec): Spec {
    Adjusted(p, RetrySpec(p, spec), NO_TOOLS)
  }

  predicate BothBuildable(p: Policy, system: Message, history: seq<Message>, tools: string, spec: Spec) {
    Buildable(p, system, history, FirstSpec(p, spec, tools))
    && Buildable(p, system, history, ThinkingRetrySpec(p, spec))
  }

  predicate IsSuffixOf(a: seq<Message>, b: seq<Message>) {
    |a| <= |b| && b[|b| - |a|..] == a
  }

  // The retry shows no message, after the system message, that the first view
  // did not show.
  predicate RetryShowsNoMore(p: Policy, system: Message, history: seq<Message>, tools: string, spec: Spec) {
    IsSuffixOf(View(p, system, history, ThinkingRetrySpec(p, spec)).messages[1..],
               View(p, system, history, FirstSpec(p, spec, tools)).messages[1..])
  }

  // The roles the engine gives to messages: the system message its own, and
  // everything stored that of the user or the assistant.
  predicate OwnRoles(system: Message, history: seq<Message>) {
    system.role == ROLE_SYSTEM
    && forall i :: 0 <= i < |history| ==> history[i].role == ROLE_USER || history[i].role == ROLE_ASSISTANT
  }

  // With `own`, only messages with those roles are considered.
  predicate Considered(own: bool, system: Message, history: seq<Message>) {
    own ==> OwnRoles(system, history)
  }

  // The least cost of a system message, and of the first turn of a history.
  function LeastSystem(own: bool): nat {
    if own then 11 else 8
  }

  function LeastTurn(own: bool): nat {
    if own then 10 else 8
  }

  // The least budgets for a view of a user's turn alone, and of two turns.
  function OneTurn(own: bool): nat {
    LeastSystem(own) + 10
  }

  function TwoTurnsRoom(own: bool): nat {
    OneTurn(own) + LeastTurn(own)
  }

  lemma FlattenFrom(turns: seq<seq<Message>>, j: nat, k: nat)
    requires j <= k <= |turns|
    ensures IsSuffixOf(Flatten(turns[k..]), Flatten(turns[j..]))
  {
    hide Flatten;
    FlattenConcat(turns[j..k], turns[k..]);
    assert turns[j..] == turns[j..k] + turns[k..];
  }

  lemma ViewFrom(p: Policy, system: Message, history: seq<Message>, m: Spec)
    ensures View(p, system, history, m).messages[1..]
            == Flatten(PreparedTurns(p, history)[Start(system, PreparedTurns(p, history), p.InputBudget(m))..])
  {
    hide Flatten, PreparedTurns, Start, MessagesTokens, CountTooLong;
  }

  lemma UserCost(m: Message)
    requires OrdinaryUser(m)
    ensures MessageTokens(m) >= 10
  {
    hide Quarters, CallsTokens;
    UserRole();
  }

  lemma UserRole()
    ensures Quarters(ROLE_USER) == 8
  {
    assert "user"[1..] == "ser" && "ser"[1..] == "er" && "er"[1..] == "r" && "r"[1..] == "";
    assert Quarters("r") == 2 && Quarters("er") == 4 && Quarters("ser") == 6;
  }

  lemma TurnCost(g: seq<Message>)
    requires g != []
    ensures MessagesTokens(g) >= 8
    ensures OrdinaryUser(g[0]) ==> MessagesTokens(g) >= 10
  {
    hide MessageTokens;
    if OrdinaryUser(g[0]) {
      UserCost(g[0]);
    }
  }

  lemma TurnsFromCost(turns: seq<seq<Message>>, k: nat)
    requires k < |turns| && turns[k] != []
    ensures MessagesTokens(Flatten(turns[k..])) >= 8
    ensures OrdinaryUser(turns[k][0]) ==> MessagesTokens(Flatten(turns[k..])) >= 10
  {
    hide Flatten, MessagesTokens;
    SuffixCost(turns, k);
    TurnCost(turns[k]);
  }

  lemma SystemRoleCost(m: Message)
    requires m.role == ROLE_SYSTEM
    ensures MessageTokens(m) >= 11
  {
    hide Quarters, CallsTokens;
    WordCost(ROLE_SYSTEM);
  }

  lemma AssistantCost(m: Message)
    requires m.role == ROLE_ASSISTANT || m.role == ROLE_USER
    ensures MessageTokens(m) >= 10
  {
    hide Quarters, CallsTokens;
    UserRole();
    WordCost(ROLE_ASSISTANT);
  }

  // What a system message and a first turn cost at least.
  predicate CostsEnough(own: bool, system: Message, turns: seq<seq<Message>>) {
    && MessageTokens(system) >= LeastSystem(own)
    && (turns != [] && turns[0] != [] ==> MessagesTokens(turns[0]) >= LeastTurn(own))
  }

  lemma ConsideredCost(own: bool, p: Policy, system: Message, history: seq<Message>)
    requires Considered(own, system, history)
    ensures CostsEnough(own, system, PreparedTurns(p, history))
  {
    hide MessageTokens, MessagesTokens, TurnsOf, Truncated;
    if own {
      SystemRoleCost(system);
    }
    var h := Prepared(history, p.Resolved().maxToolResultTokens);
    TurnStarts(h);
    EmptyTurns(h);
    if history != [] {
      TruncatedKeepsRole(history[0], p.Resolved().maxToolResultTokens);
      FirstCost(own, TurnsOf(h)[0]);
    }
  }

  lemma EmptyTurns(h: seq<Message>)
    ensures h == [] ==> TurnsOf(h) == []
  {
  }

  lemma TruncatedKeepsRole(m: Message, limit: int)
    ensures Truncated(m, limit).role == m.role
  {
    hide Kept, MessageTokens;
  }

  lemma FirstCost(own: bool, g: seq<Message>)
    requires g != [] && (own ==> g[0].role == ROLE_USER || g[0].role == ROLE_ASSISTANT)
    ensures MessagesTokens(g) >= LeastTurn(own)
  {
    hide MessageTokens;
    if own {
      AssistantCost(g[0]);
    }
  }

  // A view grows only if a user's turn alone fits the first budget, and two
  // turns fit the second.
  lemma GrowthNeedsRoom(own: bool, system: Message, turns: seq<seq<Message>>, j: nat, k: nat)
    requires k < j < |turns|
    requires forall i :: 0 <= i < |turns| ==> turns[i] != []
    requires forall i :: 1 <= i < |turns| ==> OrdinaryUser(turns[i][0])
    requires CostsEnough(own, system, turns)
    ensures SuffixTokens(system, turns, j) >= OneTurn(own) && SuffixTokens(system, turns, k) >= TwoTurnsRoom(own)
  {
    hide MessageTokens, MessagesTokens, Flatten, OrdinaryUser;
    TurnsFromCost(turns, j);
    TurnsFromCost(turns, k + 1);
    SuffixCost(turns, k);
    TurnCost(turns[k]);
  }

  lemma ThinkingBudgets(p: Policy, spec: Spec, tools: string)
    ensures p.InputBudget(FirstSpec(p, spec, tools)) == p.InputBudget(spec) - Overhead(tools)
    ensures p.InputBudget(ThinkingRetrySpec(p, spec)) == p.InputBudget(RetrySpec(p, spec)) - Overhead(NO_TOOLS)
  {
    hide Overhead, Adjusted, RetrySpec;
    AdjustedBudget(p, spec, tools);
    AdjustedBudget(p, RetrySpec(p, spec), NO_TOOLS);
  }

  // The retry's budget is no larger, or no view of one turn fits the first
  // budget, or no view of two turns fits the second.
  predicate NoRoom(own: bool, p: Policy, spec: Spec, tools: string) {
    var first, retry := p.InputBudget(FirstSpec(p, spec, tools)), p.InputBudget(ThinkingRetrySpec(p, spec));
    retry <= first || first < OneTurn(own) || retry < TwoTurnsRoom(own)
  }

  lemma NoRoomNoGrowth(own: bool, p: Policy, system: Message, history: seq<Message>, tools: string, spec: Spec)
    ensures Considered(own, system, history) && BothBuildable(p, system, history, tools, spec) && NoRoom(own, p, spec, tools) ==>
              RetryShowsNoMore(p, system, history, tools, spec)
  {
    hide View, FirstSpec, ThinkingRetrySpec, PreparedTurns, Start, Flatten, MessagesTokens, MessageTokens, Legal, SuffixTokens,
         Policy.InputBudget, Considered, CostsEnough, RetryShowsNoMore;
    if !Considered(own, system, history) || !BothBuildable(p, system, history, tools, spec) || !NoRoom(own, p, spec, tools) {
      return;
    }
    ConsideredCost(own, p, system, history);
    var turns := PreparedTurns(p, history);
    var first, retry := p.InputBudget(FirstSpec(p, spec, tools)), p.InputBudget(ThinkingRetrySpec(p, spec));
    var j, k := Start(system, turns, first), Start(system, turns, retry);
    LastTurnFits(system, turns, first);
    LastTurnFits(system, turns, retry);
    if retry <= first {
      StartsLater(system, turns, retry, first);
    } else if k < j {
      PreparedStarts(p, history);
      GrowthNeedsRoom(own, system, turns, j, k);
      assert false;
    }
    LaterStartShowsNoMore(p, system, history, tools, spec);
  }

  lemma LaterStartShowsNoMore(p: Policy, system: Message, history: seq<Message>, tools: string, spec: Spec)
    requires var turns := PreparedTurns(p, history);
             Start(system, turns, p.InputBudget(FirstSpec(p, spec, tools)))
             <= Start(system, turns, p.InputBudget(ThinkingRetrySpec(p, spec)))
    ensures RetryShowsNoMore(p, system, history, tools, spec)
  {
    hide View, FirstSpec, ThinkingRetrySpec, PreparedTurns, Start, Flatten, Policy.InputBudget, IsSuffixOf;
    var turns := PreparedTurns(p, history);
    var j := Start(system, turns, p.InputBudget(FirstSpec(p, spec, tools)));
    var k := Start(system, turns, p.InputBudget(ThinkingRetrySpec(p, spec)));
    ViewFrom(p, system, history, FirstSpec(p, spec, tools));
    ViewFrom(p, system, history, ThinkingRetrySpec(p, spec));
    FlattenFrom(turns, j, k);
  }

  lemma PreparedStarts(p: Policy, history: seq<Message>)
    ensures var turns := PreparedTurns(p, history);
            (forall i :: 0 <= i < |turns| ==> turns[i] != [])
            && forall i :: 1 <= i < |turns| ==> OrdinaryUser(turns[i][0])
  {
    hide TurnsOf, OrdinaryUser;
    TurnStarts(Prepared(history, p.Resolved().maxToolResultTokens));
  }

  lemma LastTurnFits(system: Message, turns: seq<seq<Message>>, budget: int)
    requires SuffixFits(system, turns, if turns == [] then 0 else |turns| - 1, budget)
    ensures turns != [] ==> Start(system, turns, budget) < |turns|
  {
    hide SuffixFits;
    StartIsLongest(system, turns, budget);
  }

  // ---------- a history of two turns ----------

  predicate Plain(m: Message) {
    m.toolCalls == [] && m.toolCallId == ""
  }

  lemma TwoTurns(a: Message, u: Message)
    requires Plain(a) && Plain(u) && u.role == ROLE_USER
    ensures Legal([a, u]) && TurnsOf([a, u]) == [[a], [u]]
  {
    hide TurnsOf;
    assert [a, u][1..] == [u] && [u][1..] == [];
    assert Legal([u]);
    assert IsUnit([u]);
    SingleTurn([a]);
    AddUnitToOne([a], [u]);
    assert [a] + [u] == [a, u];
  }

  lemma PlainIsPrepared(a: Message, u: Message, limit: int)
    requires Plain(a) && Plain(u)
    ensures Prepared([a, u], limit) == [a, u]
  {
    hide MessageTokens, Kept, Marked;
    assert Truncated(a, limit) == a && Truncated(u, limit) == u;
  }

  // What is built from two plain messages, the second of a user.
  lemma TwoTurnView(p: Policy, system: Message, a: Message, u: Message, m: Spec)
    requires Plain(a) && Plain(u) && u.role == ROLE_USER
    ensures Buildable(p, system, [a, u], m) <==> MessageTokens(system) + MessageTokens(u) <= p.InputBudget(m)
    ensures Buildable(p, system, [a, u], m) ==>
              View(p, system, [a, u], m).messages
              == if MessageTokens(system) + MessageTokens(a) + MessageTokens(u) <= p.InputBudget(m) then [system, a, u]
                 else [system, u]
  {
    hide MessageTokens, TurnsOf, Legal, Prepared, Start, CountTooLong, TurnStart;
    var turns, budget := [[a], [u]], p.InputBudget(m);
    hide Policy.InputBudget;
    PlainIsPrepared(a, u, p.Resolved().maxToolResultTokens);
    TwoTurns(a, u);
    TwoTurnTokens(system, a, u);
    if MessageTokens(system) + MessageTokens(a) + MessageTokens(u) <= budget {
      StartIs(system, turns, 0, budget);
    } else if MessageTokens(system) + MessageTokens(u) <= budget {
      StartIs(system, turns, 1, budget);
    }
  }

  lemma TwoTurnTokens(system: Message, a: Message, u: Message)
    ensures var turns := [[a], [u]];
            && Flatten(turns[0..]) == [a, u] && Flatten(turns[1..]) == [u]
            && SuffixTokens(system, turns, 0) == MessageTokens(system) + MessageTokens(a) + MessageTokens(u)
            && SuffixTokens(system, turns, 1) == MessageTokens(system) + MessageTokens(u)
  {
    hide MessageTokens;
    var turns := [[a], [u]];
    assert turns[0..] == turns && turns[1..] == [[u]];
    FlattenOne([u]);
    assert Flatten(turns) == [a] + Flatten(turns[1..]) == [a, u];
    MessagesTokensConcat([a], [u]);
    assert [a] + [u] == [a, u] && [a][1..] == [] && [u][1..] == [];
    assert MessagesTokens([a]) == MessageTokens(a) && MessagesTokens([u]) == MessageTokens(u);
  }

  // ---------- when the retry grows ----------

  function Letters(n: nat): (s: string)
    ensures |s| == n && forall i :: 0 <= i < n ==> s[i] == 'a'
  {
    seq(n, _ => 'a')
  }

  lemma {:induction false} WordCost(text: string)
    requires forall i :: 0 <= i < |text| ==> AsciiWord(text[i])
    ensures Quarters(text) == 2 * |text|
    decreases |text|
  {
    if text != "" {
      WordCost(text[1..]);
    }
  }

  lemma {:induction false} MarkCost(text: string)
    requires forall i :: 0 <= i < |text| ==> text[i] as int < 128 && !AsciiWord(text[i])
    ensures Quarters(text) == 4 * |text|
    decreases |text|
  {
    if text != "" {
      MarkCost(text[1..]);
    }
  }

  // A system message of any cost from the least on, and a least first turn.
  function SystemOf(own: bool, cost: nat): Message
    requires cost >= LeastSystem(own)
  {
    Message(if own then ROLE_SYSTEM else "", Letters(2 * (cost - LeastSystem(own))), [], "", None)
  }

  function FirstOf(own: bool): Message {
    if own then SHORT_REQUEST else Message("", "", [], "", None)
  }

  lemma SystemOfCost(own: bool, cost: nat)
    requires cost >= LeastSystem(own)
    ensures MessageTokens(SystemOf(own, cost)) == cost
  {
    hide Quarters, Letters;
    EmptyCost();
    WordCost(ROLE_SYSTEM);
    WordCost(Letters(2 * (cost - LeastSystem(own))));
  }

  lemma FirstOfCost(own: bool)
    ensures MessageTokens(FirstOf(own)) == LeastTurn(own) && Plain(FirstOf(own))
  {
    hide Quarters;
    EmptyCost();
    UserRole();
  }

  lemma EmptyCost()
    ensures Quarters("") == 0
  {
  }

  const SHORT_REQUEST := Message(ROLE_USER, "", [], "", None)

  lemma ShortRequestCost()
    ensures MessageTokens(SHORT_REQUEST) == 10
  {
    hide Quarters;
    EmptyCost();
    UserRole();
  }

  lemma RoomGrows(own: bool, p: Policy, tools: string, spec: Spec) returns (system: Message, history: seq<Message>)
    ensures !NoRoom(own, p, spec, tools) ==>
              Considered(own, system, history) && BothBuildable(p, system, history, tools, spec)
              && !RetryShowsNoMore(p, system, history, tools, spec)
  {
    hide FirstSpec, ThinkingRetrySpec, View, Buildable, MessageTokens, Policy.InputBudget, SystemOf, FirstOf, Considered, Plain;
    if NoRoom(own, p, spec, tools) {
      return SHORT_REQUEST, [];
    }
    var first, retry := p.InputBudget(FirstSpec(p, spec, tools)), p.InputBudget(ThinkingRetrySpec(p, spec));
    // As much as leaves room for one request, but not for the first turn too.
    var most := first - 9 - LeastTurn(own);
    var cost := if most < LeastSystem(own) then LeastSystem(own) else most;
    system, history := SystemOf(own, cost), [FirstOf(own), SHORT_REQUEST];
    SystemOfCost(own, cost);
    FirstOfCost(own);
    SampleIsConsidered(own, cost);
    ShortRequestCost();
    TwoTurnView(p, system, FirstOf(own), SHORT_REQUEST, FirstSpec(p, spec, tools));
    TwoTurnView(p, system, FirstOf(own), SHORT_REQUEST, ThinkingRetrySpec(p, spec));
  }

  lemma SampleIsConsidered(own: bool, cost: nat)
    requires cost >= LeastSystem(own)
    ensures Considered(own, SystemOf(own, cost), [FirstOf(own), SHORT_REQUEST]) && Plain(SHORT_REQUEST)
  {
  }

  // For a given policy, specification and tools: the retry of the thinking
  // phase never shows more than the view that was too long, whatever the
  // history, exactly when there is no room for more. This holds over all
  // messages, and over those with the engine's own roles.
  lemma ThinkingRetryExactly(own: bool, p: Policy, spec: Spec, tools: string)
    ensures (forall system, history ::
               Considered(own, system, history) && BothBuildable(p, system, history, tools, spec) ==>
               RetryShowsNoMore(p, system, history, tools, spec))
            <==> NoRoom(own, p, spec, tools)
  {
    hide Considered, BothBuildable, RetryShowsNoMore, NoRoom;
    if NoRoom(own, p, spec, tools) {
      forall system, history | Considered(own, system, history) && BothBuildable(p, system, history, tools, spec)
        ensures RetryShowsNoMore(p, system, history, tools, spec)
      {
        NoRoomNoGrowth(own, p, system, history, tools, spec);
      }
    } else {
      var system, history := RoomGrows(own, p, tools, spec);
    }
  }

  // ---------- an input on which it grows ----------

  // The default policy, a small window, and one tool as it is serialized.
  const DEFAULTS := Policy(0, 0, 0, 0)
  const SMALL_SPEC := Spec(80, 1)
  const LIST_TOOL := "[{\"" + ("name" + ("\":\"" + ("ls" + ("\",\"" + ("description" + ("\":\"\",\"" + ("input" + ("_"
                     + ("schema" + "\":{}}]")))))))))

  lemma ListToolCost()
    ensures Quarters(LIST_TOOL) == 144
  {
    hide Quarters;
    MarkCost("[{\"");
    WordCost("name");
    MarkCost("\":\"");
    WordCost("ls");
    MarkCost("\",\"");
    WordCost("description");
    MarkCost("\":\"\",\"");
    WordCost("input");
    MarkCost("_");
    WordCost("schema");
    MarkCost("\":{}}]");
    var t9 := "schema" + "\":{}}]";
    QuartersConcat("schema", "\":{}}]");
    QuartersConcat("_", t9);
    QuartersConcat("input", "_" + t9);
    var t6 := "\":\"\",\"" + ("input" + ("_" + t9));
    QuartersConcat("\":\"\",\"", "input" + ("_" + t9));
    QuartersConcat("description", t6);
    QuartersConcat("\",\"", "description" + t6);
    var t3 := "ls" + ("\",\"" + ("description" + t6));
    QuartersConcat("ls", "\",\"" + ("description" + t6));
    QuartersConcat("\":\"", t3);
    QuartersConcat("name", "\":\"" + t3);
    QuartersConcat("[{\"", "name" + ("\":\"" + t3));
  }

  lemma NullCost()
    ensures Quarters(NO_TOOLS) == 8
  {
    WordCost(NO_TOOLS);
  }

  lemma SystemCost()
    ensures MessageTokens(Message(ROLE_SYSTEM, "", [], "", None)) == 11
  {
    hide Quarters;
    EmptyCost();
    WordCost(ROLE_SYSTEM);
  }

  lemma OverheadIs(tools: string)
    ensures Overhead(tools) == 8 + (Quarters(tools) + 3) / 4
  {
  }

  // A system message and two short requests: the first view has room for the
  // last request only, and the retry shows both.
  lemma ThinkingRetryCanGrow()
    ensures var system, history := Message(ROLE_SYSTEM, "", [], "", None), [SHORT_REQUEST, SHORT_REQUEST];
            && BothBuildable(DEFAULTS, system, history, LIST_TOOL, SMALL_SPEC)
            && View(DEFAULTS, system, history, FirstSpec(DEFAULTS, SMALL_SPEC, LIST_TOOL)).messages
               == [system, SHORT_REQUEST]
            && View(DEFAULTS, system, history, ThinkingRetrySpec(DEFAULTS, SMALL_SPEC)).messages
               == [system, SHORT_REQUEST, SHORT_REQUEST]
  {
    hide FirstSpec, ThinkingRetrySpec, View, Buildable, MessageTokens, Overhead, Quarters;
    var system := Message(ROLE_SYSTEM, "", [], "", None);
    ThinkingBudgets(DEFAULTS, SMALL_SPEC, LIST_TOOL);
    OverheadIs(LIST_TOOL);
    OverheadIs(NO_TOOLS);
    ListToolCost();
    NullCost();
    SmallBudgets();
    SystemCost();
    ShortRequestCost();
    hide Policy.InputBudget, RetrySpec;
    TwoTurnView(DEFAULTS, system, SHORT_REQUEST, SHORT_REQUEST, FirstSpec(DEFAULTS, SMALL_SPEC, LIST_TOOL));
    TwoTurnView(DEFAULTS, system, SHORT_REQUEST, SHORT_REQUEST, ThinkingRetrySpec(DEFAULTS, SMALL_SPEC));
  }

  lemma SmallBudgets()
    ensures DEFAULTS.InputBudget(SMALL_SPEC) == 71 && DEFAULTS.InputBudget(RetrySpec(DEFAULTS, SMALL_SPEC)) == 53
  {
  }

  // ---------- the messages of a turn ----------

  function ToolResult(call: ToolCall, output: string): Message {
    Message(ROLE_USER, output, [], call.id, None)
  }

  function Results(calls: seq<ToolCall>, outputs: seq<string>): (rs: seq<Message>)
    requires |outputs| == |calls|
    ensures |rs| == |calls|
    ensures forall i :: 0 <= i < |rs| ==> rs[i] == ToolResult(calls[i], outputs[i])
  {
    seq(|calls|, i requires 0 <= i < |calls| => ToolResult(calls[i], outputs[i]))
  }

  predicate Permutation(order: seq<nat>, n: nat) {
    && |order| == n
    && (forall k :: 0 <= k < n ==> order[k] < n)
    && (forall i :: 0 <= i < n ==> i in order)
  }

  predicate IsObservation(m: Message, call: ToolCall, output: string) {
    && m.role == "user" && m.content == output && m.toolCallId == call.id
    && m.toolCalls == [] && m.usage.None?
  }

  // Tools run concurrently and finish in any order; each writes its own slot,
  // so the observations come out in call order.
  method ExecuteTools(calls: seq<ToolCall>, outputs: seq<string>, order: seq<nat>) returns (observations: seq<Message>)
    requires |outputs| == |calls|
    requires Permutation(order, |calls|)
    ensures observations == Results(calls, outputs)
    ensures |observations| == |calls|
    ensures forall i :: 0 <= i < |calls| ==> IsObservation(observations[i], calls[i], outputs[i])
  {
    var slots := new Message[|calls|](_ => Message("", "", [], "", None));
    for k := 0 to |order|
      invariant forall i :: 0 <= i < |calls| && i in order[..k] ==> slots[i] == ToolResult(calls[i], outputs[i])
    {
      var idx := order[k];
      assert order[..k + 1] == order[..k] + [idx];
      slots[idx] := ToolResult(calls[idx], outputs[idx]);
    }
    assert order[..|order|] == order;
    return slots[..];
  }

  // One completed turn: the content of the model's reply, its tool calls, the outputs of its tool calls, and
  // the reminder injected after repeated failures.
  datatype Turn = Turn(content: string, calls: seq<ToolCall>, outputs: seq<string>, usage: Option<TokenUsage>,
                       reminder: Option<string>)

  predicate Completed(t: Turn) {
    |t.outputs| == |t.calls| && (t.calls == [] ==> t.reminder.None?)
  }

  function Assistant(t: Turn): Message {
    Message(ROLE_ASSISTANT, Strings.TrimSpace(t.content), t.calls, "", t.usage)
  }

  function TurnMessages(t: Turn): seq<Message>
    requires Completed(t)
  {
    [Assistant(t)] + Results(t.calls, t.outputs)
      + (if t.reminder.Some? then [Message(ROLE_USER, t.reminder.value, [], "", None)] else [])
  }

  // Where a turn can end early: at the reply that is not stored, between the
  // reply and the results, or between the results and the reminder.
  datatype Cut = BeforeReply | AfterReply | AfterResults | Uncut

  // How many of its messages a turn has stored by then.
  function Stored(t: Turn, cut: Cut): (n: nat)
    requires Completed(t)
    ensures n <= |TurnMessages(t)|
  {
    match cut
    case BeforeReply => 0
    case AfterReply => 1
    case AfterResults => if t.calls == [] then 1 else 1 + |t.calls|
    case Uncut => |TurnMessages(t)|
  }

  // The history after a turn that was cut, message by message.
  ghost predicate Extended(h: seq<Message>, t: Turn, cut: Cut, after: seq<Message>)
    requires Completed(t)
  {
    && h <= after
    && var added := after[|h|..];
    && |added| == (match cut
                   case BeforeReply => 0
                   case AfterReply => 1
                   case AfterResults => 1 + |t.calls|
                   case Uncut => 1 + |t.calls| + (if t.reminder.Some? then 1 else 0))
    && (added != [] ==>
          added[0] == Message("assistant", Strings.TrimSpace(t.content), t.calls, "", t.usage))
    && (|added| > 1 ==> forall i :: 0 <= i < |t.calls| ==> IsObservation(added[1 + i], t.calls[i], t.outputs[i]))
    && (|added| > 1 + |t.calls| ==>
          added[1 + |t.calls|] == Message("user", t.reminder.value, [], "", None))
  }

  lemma TurnExtends(h: seq<Message>, t: Turn, cut: Cut)
    requires Completed(t)
    ensures Extended(h, t, cut, h + TurnMessages(t)[..Stored(t, cut)])
  {
    var after := h + TurnMessages(t)[..Stored(t, cut)];
    assert after[|h|..] == TurnMessages(t)[..Stored(t, cut)];
  }

  method RunTurn(history: seq<Message>, t: Turn, order: seq<nat>, cut: Cut) returns (h: seq<Message>, done: bool)
    requires Completed(t) && Permutation(order, |t.calls|)
    ensures h == history + TurnMessages(t)[..Stored(t, cut)]
    ensures Extended(history, t, cut, h)
    ensures cut.Uncut? ==> h == history + TurnMessages(t) && (done <==> t.calls == [])
    ensures cut.BeforeReply? || cut.AfterReply? ==> !done
  {
    hide Results, TurnMessages, Extended, Stored, Permutation, Strings.TrimSpace;
    TurnExtends(history, t, cut);
    TurnParts(history, t);
    WholeTurn(history, t);
    if cut.BeforeReply? {
      return history, false;
    }
    h := history + [Message(ROLE_ASSISTANT, Strings.TrimSpace(t.content), t.calls, "", t.usage)];
    if cut.AfterReply? {
      return h, false;
    }
    if |t.calls| == 0 {
      return h, true;
    }
    var observations := ExecuteTools(t.calls, t.outputs, order);
    h := h + observations;
    if cut.AfterResults? {
      return h, false;
    }
    if t.reminder.Some? {
      h := h + [Message(ROLE_USER, t.reminder.value, [], "", None)];
    }
    return h, false;
  }

  lemma TurnParts(h: seq<Message>, t: Turn)
    requires Completed(t)
    ensures h + TurnMessages(t)[..Stored(t, BeforeReply)] == h
    ensures h + TurnMessages(t)[..Stored(t, AfterReply)] == h + [Assistant(t)]
    ensures h + TurnMessages(t)[..Stored(t, AfterResults)]
            == if t.calls == [] then h + [Assistant(t)] else h + [Assistant(t)] + Results(t.calls, t.outputs)
  {
    hide Assistant;
    var all, results := TurnMessages(t), Results(t.calls, t.outputs);
    assert all[..0] == [] && all[..1] == [Assistant(t)];
    assert all[..1 + |t.calls|] == [Assistant(t)] + results;
  }

  lemma WholeTurn(h: seq<Message>, t: Turn)
    requires Completed(t)
    ensures h + TurnMessages(t)[..Stored(t, Uncut)] == h + TurnMessages(t)
    ensures h + TurnMessages(t)
            == if t.calls == [] then h + [Assistant(t)]
               else if t.reminder.None? then h + [Assistant(t)] + Results(t.calls, t.outputs)
               else h + [Assistant(t)] + Results(t.calls, t.outputs)
                      + [Message(ROLE_USER, t.reminder.value, [], "", None)]
  {
    hide Assistant;
    var all := TurnMessages(t);
    assert all[..|all|] == all;
    assert t.calls == [] ==> all == [Assistant(t)];
  }

  predicate LegalCalls(t: Turn) {
    DistinctIds(t.calls)
  }

  lemma ResultsAnswer(calls: seq<ToolCall>, outputs: seq<string>)
    requires |outputs| == |calls| && DistinctIds(calls)
    ensures AnswersSome(calls, Results(calls, outputs))
  {
    var rs := Results(calls, outputs);
    forall i | 0 <= i < |rs|
      ensures ResultOf(calls, rs[i])
    {
      assert calls[i].id == rs[i].toolCallId;
    }
  }

  // A completed turn keeps a history legal exactly when its calls carry
  // distinct, nonempty IDs.
  lemma TurnKeepsLegal(h: seq<Message>, t: Turn)
    requires Legal(h) && Completed(t)
    ensures Legal(h + TurnMessages(t)) <==> LegalCalls(t)
  {
    hide AnswersSome, DistinctIds, Legal;
    var x := TurnMessages(t);
    LegalConcat(h, x);
    LegalSteps(x);
    var n := UnitSize(x[0]);
    assert x[1..n] == Results(t.calls, t.outputs);
    if LegalCalls(t) {
      ResultsAnswer(t.calls, t.outputs);
    } else {
      NoCallsAreDistinct(t.calls);
    }
    ReminderIsLegal(x[n..]);
  }

  lemma NoCallsAreDistinct(calls: seq<ToolCall>)
    ensures calls == [] ==> DistinctIds(calls)
  {
  }

  lemma ReminderIsLegal(h: seq<Message>)
    requires |h| <= 1 && (h != [] ==> OrdinaryUser(h[0]) && h[0].toolCalls == [])
    ensures Legal(h)
  {
    if h != [] {
      assert h[UnitSize(h[0])..] == [];
    }
  }

  // A turn with clashing call IDs makes the history unusable for good.
  lemma ClashIsForever(h: seq<Message>, t: Turn, later: seq<Message>)
    requires Legal(h) && Completed(t) && !LegalCalls(t)
    ensures !Legal(h + TurnMessages(t) + later)
  {
    hide AnswersSome, DistinctIds, Legal;
    var x := TurnMessages(t) + later;
    assert h + TurnMessages(t) + later == h + x;
    LegalConcat(h, x);
    LegalSteps(x);
    NoCallsAreDistinct(t.calls);
  }

  // A turn that is cut leaves a legal history exactly when nothing or all of
  // its calls and results are stored, and then only with distinct call IDs.
  lemma CutTurnExactly(h: seq<Message>, t: Turn, cut: Cut)
    requires Legal(h) && Completed(t)
    ensures Legal(h + TurnMessages(t)[..Stored(t, cut)]) <==>
            match cut
            case BeforeReply => true
            case AfterReply => t.calls == []
            case AfterResults => LegalCalls(t)
            case Uncut => LegalCalls(t)
  {
    hide AnswersSome, DistinctIds, Legal;
    var all := TurnMessages(t);
    match cut
    case BeforeReply =>
      assert h + all[..0] == h;
    case AfterReply =>
      assert all[..1] == [Assistant(t)];
      LegalConcat(h, all[..1]);
      LoneReply(t);
    case AfterResults =>
      var short := t.(reminder := None);
      assert all[..Stored(t, cut)] == TurnMessages(short);
      TurnKeepsLegal(h, short);
    case Uncut =>
      assert all[..|all|] == all;
      TurnKeepsLegal(h, t);
  }

  lemma LoneReply(t: Turn)
    ensures Legal([Assistant(t)]) <==> t.calls == []
  {
    hide AnswersSome;
    NoCallsAreDistinct(t.calls);
    assert [Assistant(t)][1..] == [];
  }

  // Calls stored without their results are never answered: whatever is stored
  // afterwards, beginning with another message than a result, stays illegal.
  lemma PendingCallsAreForever(h: seq<Message>, t: Turn, later: seq<Message>)
    requires Legal(h) && Completed(t) && t.calls != []
    requires later != [] ==> later[0].toolCallId == ""
    ensures !Legal(h + [Assistant(t)] + later)
  {
    hide AnswersSome, DistinctIds, Legal;
    var x := [Assistant(t)] + later;
    assert h + [Assistant(t)] + later == h + x;
    LegalConcat(h, x);
    LegalSteps(x);
    if StartsWithUnit(x) {
      UnitAnswers(x, 0);
      assert false;
    }
  }

  // What a conversation adds to its session: a user's message, then turns.
  function Conversation(text: string, turns: seq<Turn>): seq<Message>
    requires forall i :: 0 <= i < |turns| ==> Completed(turns[i])
  {
    if turns == [] then [Message(ROLE_USER, text, [], "", None)]
    else Conversation(text, turns[..|turns| - 1]) + TurnMessages(turns[|turns| - 1])
  }

  lemma {:induction false} ConversationKeepsLegal(h: seq<Message>, text: string, turns: seq<Turn>)
    requires Legal(h)
    requires forall i :: 0 <= i < |turns| ==> Completed(turns[i]) && LegalCalls(turns[i])
    ensures Legal(h + Conversation(text, turns))
    decreases |turns|
  {
    hide Legal, LegalCalls;
    if turns == [] {
      var user := [Message(ROLE_USER, text, [], "", None)];
      LegalConcat(h, user);
      ReminderIsLegal(user);
    } else {
      var before, last := turns[..|turns| - 1], turns[|turns| - 1];
      ConversationKeepsLegal(h, text, before);
      TurnKeepsLegal(h + Conversation(text, before), last);
      assert h + Conversation(text, turns) == h + Conversation(text, before) + TurnMessages(last);
    }
  }
}
