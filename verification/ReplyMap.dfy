/** From a completed reply to a message of the history
    (internal/provider/openai/responses.go, `mapResponse`). Whether call
    arguments are valid JSON is a parameter. */
module ReplyMap {
  import opened Basics
  import opened Schema
  import opened Responses
  import opened Turns
  import Engine

  datatype MapFault = KnownError(code: string) | Incomplete | Refused | MalformedCall | NothingReturned

  // What the items of a reply add up to.
  datatype Parts = Parts(text: string, calls: seq<ToolCall>)

  function Plus(a: Parts, b: Parts): Parts {
    Parts(a.text + b.text, a.calls + b.calls)
  }

  // The texts of a message item, up to a refusal.
  function TextOf(content: seq<Content>): Result<string, MapFault> {
    if content == [] then Ok("")
    else if content[0].kind == "refusal" then Err(Refused)
    else
      var rest :- TextOf(content[1..]);
      Ok((if content[0].kind == "output_text" then content[0].text else "") + rest)
  }

  predicate WellFormedCall(o: Item, valid: string -> bool) {
    o.callId != "" && o.name != "" && valid(o.arguments)
  }

  function PartsOf(o: Item, valid: string -> bool): Result<Parts, MapFault> {
    if o.kind == "message" then
      var text :- TextOf(o.content);
      Ok(Parts(text, []))
    else if o.kind == "function_call" then
      if WellFormedCall(o, valid) then Ok(Parts("", [ToolCall(o.callId, o.name, o.arguments)])) else Err(MalformedCall)
    else Ok(Parts("", []))
  }

  function AllParts(items: seq<Item>, valid: string -> bool): Result<Parts, MapFault> {
    if items == [] then Ok(Parts("", []))
    else
      var head :- PartsOf(items[0], valid);
      var rest :- AllParts(items[1..], valid);
      Ok(Plus(head, rest))
  }

  function ItemsOf(r: Reply): seq<Item> {
    if r.output == None then [] else r.output.value
  }

  function Mapped(r: Reply, valid: string -> bool): Result<Message, MapFault> {
    if KnownCode(ErrorCode(r.error)) then Err(KnownError(ErrorCode(r.error)))
    else if MarkedFailed(r) then Err(Incomplete)
    else
      var p :- AllParts(ItemsOf(r), valid);
      if p.text == "" && p.calls == [] then Err(NothingReturned)
      else Ok(Message(ROLE_ASSISTANT, p.text, p.calls, "", r.usage))
  }

  // ---------- the loops ----------

  // The result for items that follow what was already gathered.
  function After(p: Parts, rest: Result<Parts, MapFault>): Result<Parts, MapFault> {
    match rest
    case Ok(q) => Ok(Plus(p, q))
    case Err(f) => Err(f)
  }

  function TextAfter(text: string, rest: Result<string, MapFault>): Result<string, MapFault> {
    match rest
    case Ok(t) => Ok(text + t)
    case Err(f) => Err(f)
  }

  lemma TextStep(text: string, c: Content, rest: seq<Content>)
    ensures TextAfter(text, TextOf([c] + rest)) ==
            if c.kind == "refusal" then Err(Refused)
            else TextAfter(text + (if c.kind == "output_text" then c.text else ""), TextOf(rest))
  {
    assert ([c] + rest)[1..] == rest;
    if c.kind != "refusal" && TextOf(rest).Ok? {
      var t, u := if c.kind == "output_text" then c.text else "", TextOf(rest).value;
      assert text + (t + u) == text + t + u;
    }
  }

  method GatherText(content: seq<Content>, text: string) returns (r: Result<string, MapFault>)
    ensures r == TextAfter(text, TextOf(content))
  {
    hide TextOf;
    var gathered := text;
    for i := 0 to |content|
      invariant TextAfter(gathered, TextOf(content[i..])) == TextAfter(text, TextOf(content))
    {
      assert content[i..] == [content[i]] + content[i + 1..];
      TextStep(gathered, content[i], content[i + 1..]);
      if content[i].kind == "refusal" {
        return Err(Refused);
      }
      if content[i].kind == "output_text" {
        gathered := gathered + content[i].text;
      } else {
        assert gathered + "" == gathered;
      }
    }
    TextEnd(gathered);
    assert content[|content|..] == [];
    r := Ok(gathered);
  }

  lemma TextEnd(text: string)
    ensures TextAfter(text, TextOf([])) == Ok(text)
  {
    assert text + "" == text;
  }

  lemma PartsStep(p: Parts, o: Item, rest: seq<Item>, valid: string -> bool)
    ensures After(p, AllParts([o] + rest, valid)) ==
            if PartsOf(o, valid).Err? then Err(PartsOf(o, valid).error)
            else After(Plus(p, PartsOf(o, valid).value), AllParts(rest, valid))
  {
    hide PartsOf;
    assert ([o] + rest)[1..] == rest;
    if PartsOf(o, valid).Ok? && AllParts(rest, valid).Ok? {
      PlusAssociates(p, PartsOf(o, valid).value, AllParts(rest, valid).value);
    }
  }

  lemma PlusAssociates(p: Parts, q: Parts, r: Parts)
    ensures Plus(p, Plus(q, r)) == Plus(Plus(p, q), r)
  {
    assert p.text + (q.text + r.text) == p.text + q.text + r.text;
    assert p.calls + (q.calls + r.calls) == p.calls + q.calls + r.calls;
  }

  lemma PartsEnd(p: Parts, valid: string -> bool)
    ensures After(p, AllParts([], valid)) == Ok(p)
    ensures Plus(Parts("", []), p) == p == Plus(p, Parts("", []))
  {
    assert p.text + "" == p.text && p.calls + [] == p.calls;
  }

  lemma MessageParts(p: Parts, o: Item, valid: string -> bool)
    requires o.kind == "message"
    ensures TextAfter(p.text, TextOf(o.content)) ==
            if PartsOf(o, valid).Err? then Err(PartsOf(o, valid).error)
            else Ok(Plus(p, PartsOf(o, valid).value).text)
    ensures PartsOf(o, valid).Ok? ==> Plus(p, PartsOf(o, valid).value).calls == p.calls
  {
    hide TextOf;
    assert p.calls + [] == p.calls;
  }

  method MapResponse(r: Reply, valid: string -> bool) returns (m: Result<Message, MapFault>)
    ensures m == Mapped(r, valid)
    ensures m.Ok? <==>
            !KnownCode(ErrorCode(r.error)) && !MarkedFailed(r)
            && (forall o :: o in ItemsOf(r) ==> Acceptable(o, valid)) && (exists o :: o in ItemsOf(r) && Speaks(o))
    ensures m.Ok? ==>
              && m.value == Message(ROLE_ASSISTANT, Concat(OutputTexts(ItemsOf(r))), m.value.toolCalls, "", r.usage)
              && CallsMatch(m.value.toolCalls, CallItems(ItemsOf(r)))
  {
    hide AllParts, TextOf, PartsOf, KnownCode, ErrorCode, MarkedFailed, OutputTexts, Concat, CallItems, CallsMatch, Acceptable,
         Speaks;
    AcceptedExactly(r, valid);
    if KnownCode(ErrorCode(r.error)) {
      return Err(KnownError(ErrorCode(r.error)));
    }
    if MarkedFailed(r) {
      return Err(Incomplete);
    }
    var items := ItemsOf(r);
    var text, calls := "", [];
    AfterNothing(AllParts(items, valid));
    for i := 0 to |items|
      invariant After(Parts(text, calls), AllParts(items[i..], valid)) == AllParts(items, valid)
    {
      var o := items[i];
      ghost var p := Parts(text, calls);
      assert items[i..] == [o] + items[i + 1..];
      PartsStep(p, o, items[i + 1..], valid);
      if o.kind == "message" {
        MessageParts(p, o, valid);
        var t := GatherText(o.content, text);
        if t.Err? {
          return Err(t.error);
        }
        text := t.value;
      } else if o.kind == "function_call" {
        CallParts(p, o, valid);
        if o.callId == "" || o.name == "" || !valid(o.arguments) {
          return Err(MalformedCall);
        }
        calls := calls + [ToolCall(o.callId, o.name, o.arguments)];
      } else {
        OtherParts(p, o, valid);
      }
    }
    assert items[|items|..] == [];
    PartsEnd(Parts(text, calls), valid);
    if text == "" && |calls| == 0 {
      return Err(NothingReturned);
    }
    m := Ok(Message(ROLE_ASSISTANT, text, calls, "", r.usage));
  }

  lemma AfterNothing(rest: Result<Parts, MapFault>)
    ensures After(Parts("", []), rest) == rest
  {
    if rest.Ok? {
      assert "" + rest.value.text == rest.value.text && [] + rest.value.calls == rest.value.calls;
    }
  }

  lemma CallParts(p: Parts, o: Item, valid: string -> bool)
    requires o.kind == "function_call"
    ensures PartsOf(o, valid) == if WellFormedCall(o, valid) then Ok(Parts("", [ToolCall(o.callId, o.name, o.arguments)]))
                                 else Err(MalformedCall)
    ensures Plus(p, Parts("", [ToolCall(o.callId, o.name, o.arguments)])) ==
            Parts(p.text, p.calls + [ToolCall(o.callId, o.name, o.arguments)])
  {
    hide TextOf;
    assert p.text + "" == p.text;
  }

  lemma OtherParts(p: Parts, o: Item, valid: string -> bool)
    requires o.kind != "message" && o.kind != "function_call"
    ensures PartsOf(o, valid) == Ok(Parts("", [])) && Plus(p, Parts("", [])) == p
  {
    hide TextOf;
    assert p.text + "" == p.text && p.calls + [] == p.calls;
  }

  // ---------- what an accepted reply is ----------

  predicate Acceptable(o: Item, valid: string -> bool) {
    (o.kind == "message" ==> forall c :: c in o.content ==> c.kind != "refusal")
    && (o.kind == "function_call" ==> WellFormedCall(o, valid))
  }

  predicate Speaks(o: Item) {
    o.kind == "function_call"
    || (o.kind == "message" && exists c :: c in o.content && c.kind == "output_text" && c.text != "")
  }

  function CallItems(items: seq<Item>): seq<Item> {
    if items == [] then []
    else (if items[0].kind == "function_call" then [items[0]] else []) + CallItems(items[1..])
  }

  lemma {:induction false} TextFacts(content: seq<Content>)
    ensures TextOf(content).Ok? <==> forall c :: c in content ==> c.kind != "refusal"
    ensures TextOf(content).Ok? ==>
              (TextOf(content).value != "" <==> exists c :: c in content && c.kind == "output_text" && c.text != "")
    decreases |content|
  {
    if content != [] {
      TextFacts(content[1..]);
      assert content == [content[0]] + content[1..];
    }
  }

  lemma PartsFacts(o: Item, valid: string -> bool)
    ensures PartsOf(o, valid).Ok? <==> Acceptable(o, valid)
    ensures PartsOf(o, valid).Ok? ==>
              var p := PartsOf(o, valid).value;
              (p.text != "" || p.calls != [] <==> Speaks(o)) &&
              p.calls == if o.kind == "function_call" then [ToolCall(o.callId, o.name, o.arguments)] else []
  {
    hide TextOf;
    TextFacts(o.content);
  }

  lemma {:induction false} AllPartsFacts(items: seq<Item>, valid: string -> bool)
    ensures AllParts(items, valid).Ok? <==> forall o :: o in items ==> Acceptable(o, valid)
    ensures AllParts(items, valid).Ok? ==>
              var p := AllParts(items, valid).value;
              (p.text != "" || p.calls != [] <==> exists o :: o in items && Speaks(o)) &&
              CallsMatch(p.calls, CallItems(items))
    decreases |items|
  {
    hide PartsOf, Acceptable, Speaks;
    if items != [] {
      AllPartsFacts(items[1..], valid);
      PartsFacts(items[0], valid);
      assert items == [items[0]] + items[1..];
    }
  }

  // One call for each call item, in order.
  predicate CallsMatch(calls: seq<ToolCall>, items: seq<Item>) {
    |calls| == |items|
    && forall i :: 0 <= i < |calls| ==> calls[i] == ToolCall(items[i].callId, items[i].name, items[i].arguments)
  }

  // The texts of the output_text parts, in order.
  function PartTexts(content: seq<Content>): seq<string> {
    if content == [] then []
    else (if content[0].kind == "output_text" then [content[0].text] else []) + PartTexts(content[1..])
  }

  // Those of all message items, in order.
  function OutputTexts(items: seq<Item>): seq<string> {
    if items == [] then []
    else (if items[0].kind == "message" then PartTexts(items[0].content) else []) + OutputTexts(items[1..])
  }

  lemma {:induction false} ConcatBoth(a: seq<string>, b: seq<string>)
    ensures Concat(a + b) == Concat(a) + Concat(b)
    decreases |a|
  {
    if a == [] {
      assert a + b == b;
    } else {
      assert (a + b)[1..] == a[1..] + b;
      ConcatBoth(a[1..], b);
    }
  }

  lemma {:induction false} TextIs(content: seq<Content>)
    requires TextOf(content).Ok?
    ensures TextOf(content).value == Concat(PartTexts(content))
    decreases |content|
  {
    if content != [] {
      TextIs(content[1..]);
      assert [content[0].text][1..] == [];
      ConcatBoth([content[0].text], PartTexts(content[1..]));
      ConcatBoth([], PartTexts(content[1..]));
    }
  }

  lemma {:induction false} AllTextIs(items: seq<Item>, valid: string -> bool)
    requires AllParts(items, valid).Ok?
    ensures AllParts(items, valid).value.text == Concat(OutputTexts(items))
    decreases |items|
  {
    hide TextOf, PartTexts, Concat;
    if items != [] {
      AllTextIs(items[1..], valid);
      var here := if items[0].kind == "message" then PartTexts(items[0].content) else [];
      if items[0].kind == "message" {
        TextIs(items[0].content);
      }
      NoTexts();
      ConcatBoth(here, OutputTexts(items[1..]));
    } else {
      NoTexts();
    }
  }

  lemma NoTexts()
    ensures Concat([]) == ""
  {
  }

  // A reply is accepted exactly when it is marked complete, holds no refusal
  // and no malformed call, and says something; the message then has every text
  // and every call, in order, and the reply's usage.
  lemma AcceptedExactly(r: Reply, valid: string -> bool)
    ensures Mapped(r, valid).Ok? <==>
            !KnownCode(ErrorCode(r.error)) && !MarkedFailed(r)
            && (forall o :: o in ItemsOf(r) ==> Acceptable(o, valid)) && (exists o :: o in ItemsOf(r) && Speaks(o))
    ensures Mapped(r, valid).Ok? ==>
              var m := Mapped(r, valid).value;
              && m == Message(ROLE_ASSISTANT, Concat(OutputTexts(ItemsOf(r))), m.toolCalls, "", r.usage)
              && CallsMatch(m.toolCalls, CallItems(ItemsOf(r)))
  {
    hide AllParts, Acceptable, Speaks, CallItems, CallsMatch, KnownCode, ErrorCode, MarkedFailed, ItemsOf, OutputTexts, Concat;
    AllPartsFacts(ItemsOf(r), valid);
    if AllParts(ItemsOf(r), valid).Ok? {
      AllTextIs(ItemsOf(r), valid);
    }
  }

  // The first unacceptable item.
  predicate FirstBad(items: seq<Item>, valid: string -> bool, k: nat) {
    k < |items| && !Acceptable(items[k], valid) && forall j :: 0 <= j < k ==> Acceptable(items[j], valid)
  }

  // Why a reply is refused: for what it is marked with, or for its first
  // unacceptable item, or because nothing is left to say.
  lemma RefusedExactly(r: Reply, valid: string -> bool)
    requires Mapped(r, valid).Err?
    ensures var f, items := Mapped(r, valid).error, ItemsOf(r);
            if KnownCode(ErrorCode(r.error)) then f == KnownError(ErrorCode(r.error))
            else if (r.status != "" && r.status != "completed") || r.error.Some? then f == Incomplete
            else
              || (f == NothingReturned && forall o :: o in items ==> Acceptable(o, valid) && !Speaks(o))
              || exists k: nat :: FirstBad(items, valid, k) && f == if items[k].kind == "message" then Refused else MalformedCall
  {
    hide AllParts, Acceptable, Speaks, KnownCode, ErrorCode, ItemsOf, FirstBad;
    AllPartsFacts(ItemsOf(r), valid);
    if AllParts(ItemsOf(r), valid).Err? {
      var k := BadItem(ItemsOf(r), valid);
    }
  }

  lemma {:induction false} BadItem(items: seq<Item>, valid: string -> bool) returns (k: nat)
    requires AllParts(items, valid).Err?
    ensures FirstBad(items, valid, k)
    ensures AllParts(items, valid).error == if items[k].kind == "message" then Refused else MalformedCall
    decreases |items|
  {
    hide PartsOf, Acceptable;
    PartsFacts(items[0], valid);
    if PartsOf(items[0], valid).Err? {
      k := 0;
      PartFault(items[0], valid);
    } else {
      k := BadItem(items[1..], valid);
      k := k + 1;
    }
  }

  lemma PartFault(o: Item, valid: string -> bool)
    requires PartsOf(o, valid).Err?
    ensures PartsOf(o, valid).error == if o.kind == "message" then Refused else MalformedCall
  {
    hide TextOf;
    TextFault(o.content);
  }

  lemma {:induction false} TextFault(content: seq<Content>)
    ensures TextOf(content).Err? ==> TextOf(content).error == Refused
    decreases |content|
  {
    if content != [] {
      TextFault(content[1..]);
    }
  }

  predicate DistinctCallIds(items: seq<Item>) {
    forall i, j :: 0 <= i < j < |items| ==> items[i].callId != items[j].callId
  }

  // The provider does not compare call IDs. The turn an accepted reply starts
  // keeps a history legal exactly when its calls have different IDs.
  lemma AcceptedTurnIsLegalExactly(r: Reply, valid: string -> bool, h: seq<Message>, t: Engine.Turn)
    requires Mapped(r, valid).Ok? && t.content == Mapped(r, valid).value.content
    requires t.calls == Mapped(r, valid).value.toolCalls && t.usage == Mapped(r, valid).value.usage
    requires Engine.Completed(t) && Legal(h)
    ensures Legal(h + Engine.TurnMessages(t)) <==> DistinctCallIds(CallItems(ItemsOf(r)))
  {
    hide Legal, Engine.TurnMessages, AllParts, Mapped, ItemsOf;
    AcceptedExactly(r, valid);
    var items := CallItems(ItemsOf(r));
    AcceptedIdsAreNonempty(r, valid);
    assert forall i :: 0 <= i < |t.calls| ==> t.calls[i].id == items[i].callId;
    Engine.TurnKeepsLegal(h, t);
  }

  lemma {:induction false} CallItemsAreItems(items: seq<Item>)
    ensures forall o :: o in CallItems(items) ==> o in items && o.kind == "function_call"
    decreases |items|
  {
    if items != [] {
      CallItemsAreItems(items[1..]);
      assert items == [items[0]] + items[1..];
    }
  }

  lemma AcceptedIdsAreNonempty(r: Reply, valid: string -> bool)
    requires Mapped(r, valid).Ok?
    ensures var items := CallItems(ItemsOf(r)); forall i :: 0 <= i < |items| ==> items[i].callId != ""
  {
    hide Mapped, CallItems, Speaks, CallsMatch;
    AcceptedExactly(r, valid);
    CallItemsAreItems(ItemsOf(r));
    var items := CallItems(ItemsOf(r));
    forall i | 0 <= i < |items| ensures items[i].callId != "" {
      assert items[i] in items;
    }
  }

  // A reply whose two calls share an ID is accepted.
  lemma ClashIsAccepted(valid: string -> bool)
    requires valid("{}")
    ensures var o := Item("function_call", "c", "f", "{}", []);
            var m := Mapped(Reply("completed", None, Some([o, o]), None), valid);
            m.Ok? && !DistinctIds(m.value.toolCalls)
  {
    hide AllParts;
    var o := Item("function_call", "c", "f", "{}", []);
    var items := [o, o];
    AllPartsFacts(items, valid);
    assert items[0] in items && Speaks(items[0]);
    assert forall x :: x in items ==> Acceptable(x, valid);
    TwoCalls(o);
    var calls := AllParts(items, valid).value.calls;
    assert calls[0].id == calls[1].id;
  }

  lemma TwoCalls(o: Item)
    requires o.kind == "function_call"
    ensures CallItems([o, o]) == [o, o]
  {
    assert [o, o][1..] == [o] && [o][1..] == [];
    assert CallItems([o]) == [o];
  }
}
