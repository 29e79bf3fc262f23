/** What the items of a completed stream hold, told from its events alone
    (`decode` in `readEvents` of internal/provider/openai/responses.go): a text
    or an argument string is what last set it, followed by the deltas since. */
module Accumulation {
  import opened Basics
  import opened Responses

  type Events = seq<Option<Event>>

  // The event builds output `i`.
  predicate About(e: Option<Event>, i: int) {
    e.Some? && e.value.outputIndex == i
    && (ItemKind(e.value.kind) || ArgumentsKind(e.value.kind) || ContentKind(e.value.kind))
  }

  // The event also names part `c` of the output.
  predicate AboutPart(e: Option<Event>, i: int, c: nat) {
    About(e, i) && ContentKind(e.value.kind) && e.value.contentIndex == c
  }

  // What a text was last set to, and the deltas that came since.
  datatype Said = Said(base: string, deltas: seq<string>)

  function Whole(s: Said): string {
    s.base + Concat(s.deltas)
  }

  // An item event or a done event sets the arguments of an output.
  function Arguments(events: Events, i: int): Said {
    if events == [] then Said("", [])
    else
      var n := |events| - 1;
      var e, said := events[n], Arguments(events[..n], i);
      if !About(e, i) then said
      else if ItemKind(e.value.kind) then Said(e.value.item.arguments, [])
      else if e.value.kind == ARGUMENTS_DONE then Said(e.value.arguments, [])
      else if e.value.kind == ARGUMENTS_DELTA then Said(said.base, said.deltas + [e.value.delta])
      else said
  }

  function TextAt(content: seq<Content>, c: nat): string {
    if c < |content| then content[c].text else ""
  }

  function KindAt(content: seq<Content>, c: nat): string {
    if c < |content| then content[c].kind else ""
  }

  // An item event, a done event or a part event sets the text of a part.
  function Text(events: Events, i: int, c: nat): Said {
    if events == [] then Said("", [])
    else
      var n := |events| - 1;
      var e, said := events[n], Text(events[..n], i, c);
      if About(e, i) && ItemKind(e.value.kind) then Said(TextAt(e.value.item.content, c), [])
      else if !AboutPart(e, i, c) then said
      else if e.value.kind == TEXT_DELTA then Said(said.base, said.deltas + [e.value.delta])
      else if e.value.kind == TEXT_DONE then Said(e.value.text, [])
      else Said(e.value.part.text, [])
  }

  function PartKind(events: Events, i: int, c: nat): string {
    if events == [] then ""
    else
      var n := |events| - 1;
      var e, said := events[n], PartKind(events[..n], i, c);
      if About(e, i) && ItemKind(e.value.kind) then KindAt(e.value.item.content, c)
      else if !AboutPart(e, i, c) then said
      else if e.value.kind == TEXT_DELTA || e.value.kind == TEXT_DONE then "output_text"
      else e.value.part.kind
  }

  // How many parts an output has: those it came with, and up to the last named.
  function PartCount(events: Events, i: int): nat {
    if events == [] then 0
    else
      var n := |events| - 1;
      var e, said := events[n], PartCount(events[..n], i);
      if !About(e, i) then said
      else if ItemKind(e.value.kind) then |e.value.item.content|
      else if ContentKind(e.value.kind) && e.value.contentIndex >= said then e.value.contentIndex + 1
      else said
  }

  function OutputKind(events: Events, i: int): string {
    if events == [] then ""
    else
      var n := |events| - 1;
      var e := events[n];
      if !About(e, i) then OutputKind(events[..n], i)
      else if ItemKind(e.value.kind) then e.value.item.kind
      else if ArgumentsKind(e.value.kind) then "function_call"
      else "message"
  }

  // Everything the events say of output `i`.
  ghost predicate Says(events: Events, i: int, o: Item) {
    var last := LastItemEvent(events, i);
    && o.kind == OutputKind(events, i)
    && o.callId == (if last.Some? then last.value.item.callId else "")
    && o.name == (if last.Some? then last.value.item.name else "")
    && o.arguments == Whole(Arguments(events, i))
    && |o.content| == PartCount(events, i)
    && forall c: nat :: TextAt(o.content, c) == Whole(Text(events, i, c)) && KindAt(o.content, c) == PartKind(events, i, c)
  }

  // ---------- the items are what the events say ----------

  lemma {:induction false} ConcatSnoc(parts: seq<string>, d: string)
    ensures Concat(parts + [d]) == Concat(parts) + d
    decreases |parts|
  {
    if parts == [] {
      assert [d][1..] == [];
    } else {
      assert (parts + [d])[1..] == parts[1..] + [d];
      ConcatSnoc(parts[1..], d);
    }
  }

  // `events` is `before` and one more.
  predicate Snoc(events: Events, before: Events, e: Event) {
    events != [] && before == events[..|events| - 1] && events[|events| - 1] == Some(e)
  }

  lemma KindsDiffer(kind: string)
    ensures ItemKind(kind) ==> !ArgumentsKind(kind) && !ContentKind(kind)
    ensures ArgumentsKind(kind) ==> !ContentKind(kind)
  {
  }

  lemma SaidOfOther(events: Events, before: Events, e: Event, i: int, o: Item)
    requires Snoc(events, before, e) && !About(Some(e), i) && Says(before, i, o)
    ensures Says(events, i, o)
  {
    hide ItemKind, ArgumentsKind, ContentKind, Concat;
    forall c: nat ensures Text(events, i, c) == Text(before, i, c) && PartKind(events, i, c) == PartKind(before, i, c) {
    }
  }

  lemma SaidOfItem(events: Events, before: Events, e: Event, i: int)
    requires Snoc(events, before, e) && About(Some(e), i) && ItemKind(e.kind)
    ensures Says(events, i, e.item)
  {
    hide ItemKind, ArgumentsKind, ContentKind;
    forall c: nat ensures Whole(Text(events, i, c)) == TextAt(e.item.content, c)
                       && PartKind(events, i, c) == KindAt(e.item.content, c) {
    }
  }

  lemma SaidOfArguments(events: Events, before: Events, e: Event, i: int, o: Item)
    requires Snoc(events, before, e) && About(Some(e), i) && ArgumentsKind(e.kind) && Says(before, i, o)
    ensures Says(events, i, WithArguments(o, e))
  {
    hide Concat;
    KindsDiffer(e.kind);
    ConcatSnoc(Arguments(before, i).deltas, e.delta);
    NothingSince();
    hide ItemKind, ContentKind;
    forall c: nat ensures Text(events, i, c) == Text(before, i, c) && PartKind(events, i, c) == PartKind(before, i, c) {
    }
  }

  // Parts that are filled in are empty.
  lemma {:induction false} GrownIs(content: seq<Content>, n: nat)
    ensures var g := Grown(content, n);
            && |g| == (if |content| > n then |content| else n + 1)
            && forall c: nat :: TextAt(g, c) == TextAt(content, c) && KindAt(g, c) == KindAt(content, c)
    decreases n + 1 - |content|
  {
    if |content| <= n {
      var longer := content + [NO_CONTENT];
      GrownIs(longer, n);
      assert forall c: nat :: TextAt(longer, c) == TextAt(content, c) && KindAt(longer, c) == KindAt(content, c);
    }
  }

  lemma SaidOfContent(events: Events, before: Events, e: Event, i: int, o: Item)
    requires Snoc(events, before, e) && About(Some(e), i) && ContentKind(e.kind) && e.contentIndex >= 0
    requires Says(before, i, o)
    ensures Says(events, i, WithContent(o, e))
  {
    hide Concat, Grown;
    KindsDiffer(e.kind);
    var k := e.contentIndex;
    GrownIs(o.content, k);
    var g := Grown(o.content, k);
    var o' := WithContent(o, e);
    forall c: nat
      ensures TextAt(o'.content, c) == Whole(Text(events, i, c)) && KindAt(o'.content, c) == PartKind(events, i, c)
    {
      assert TextAt(g, c) == Whole(Text(before, i, c)) && KindAt(g, c) == PartKind(before, i, c);
      if c == k {
        SaidOfPart(events, before, e, i, c, g[c]);
      } else {
        SaidOfOtherPart(events, before, e, i, c);
      }
    }
  }

  lemma SaidOfOtherPart(events: Events, before: Events, e: Event, i: int, c: nat)
    requires Snoc(events, before, e) && About(Some(e), i) && ContentKind(e.kind) && e.contentIndex != c
    ensures Text(events, i, c) == Text(before, i, c) && PartKind(events, i, c) == PartKind(before, i, c)
  {
    KindsDiffer(e.kind);
    hide ItemKind, ArgumentsKind, ContentKind;
  }

  lemma SaidOfPart(events: Events, before: Events, e: Event, i: int, c: nat, part: Content)
    requires Snoc(events, before, e) && AboutPart(Some(e), i, c)
    requires part.text == Whole(Text(before, i, c)) && part.kind == PartKind(before, i, c)
    ensures PartAfter(part, e).text == Whole(Text(events, i, c)) && PartAfter(part, e).kind == PartKind(events, i, c)
  {
    hide Concat;
    KindsDiffer(e.kind);
    ConcatSnoc(Text(before, i, c).deltas, e.delta);
    NothingSince();
  }

  lemma NothingSince()
    ensures Concat([]) == ""
  {
  }

  lemma SaidOfNothing(i: int)
    ensures Says([], i, NO_ITEM)
  {
  }

  // The accumulated item is exactly what the events say.
  lemma {:induction false} ItemIsSaid(events: Events, i: int)
    requires AllBenign(events)
    ensures Says(events, i, ItemOf(AccAll(EMPTY, events), i))
    decreases |events|
  {
    hide Rejection, AccAfter, AccAll, Says, About;
    if events == [] {
      AccAllNone();
      SaidOfNothing(i);
    } else {
      AccLast(events);
      var before := events[..|events| - 1];
      var e := events[|events| - 1].value;
      ItemIsSaid(before, i);
      SaidStep(events, before, e, i, AccAll(EMPTY, before));
    }
  }

  lemma SaidStep(events: Events, before: Events, e: Event, i: int, acc: Acc)
    requires Snoc(events, before, e) && Rejection(e) == None && Says(before, i, ItemOf(acc, i))
    ensures Says(events, i, ItemOf(AccAfter(acc, e), i))
  {
    hide KnownFault, MarkedFailed, Says, WithContent, WithArguments, ItemKind, ArgumentsKind, ContentKind;
    KindsDiffer(e.kind);
    if !About(Some(e), i) {
      SaidOfOther(events, before, e, i, ItemOf(acc, i));
    } else if ItemKind(e.kind) {
      SaidOfItem(events, before, e, i);
    } else if ArgumentsKind(e.kind) {
      SaidOfArguments(events, before, e, i, ItemOf(acc, i));
    } else {
      PartIndex(e);
      SaidOfContent(events, before, e, i, ItemOf(acc, i));
    }
  }

  lemma PartIndex(e: Event)
    requires Rejection(e) == None && ContentKind(e.kind)
    ensures e.contentIndex >= 0
  {
    hide KnownFault, MarkedFailed;
  }

  // ---------- the outputs that are returned ----------

  // The outputs the events build.
  function Seen(events: Events): set<int> {
    set e | e in events && e.Some? && About(e, e.value.outputIndex) :: e.value.outputIndex
  }

  predicate IsFinal(events: Events, i: int) {
    LastItemEvent(events, i).Some? && LastItemEvent(events, i).value.kind == ITEM_DONE
  }

  lemma {:induction false} SeenIsAccumulated(events: Events)
    requires AllBenign(events)
    ensures AccAll(EMPTY, events).items.Keys == Seen(events)
    decreases |events|
  {
    hide Rejection, AccAfter, AccAll, About, ItemOf;
    if events == [] {
      AccAllNone();
    } else {
      AccLast(events);
      var before, last := events[..|events| - 1], events[|events| - 1];
      SeenIsAccumulated(before);
      KeysAfter(AccAll(EMPTY, before), last.value);
      assert events == before + [last];
      SeenSnoc(before, last.value);
    }
  }

  lemma SeenSnoc(before: Events, e: Event)
    ensures Seen(before + [Some(e)]) == Seen(before) + (if About(Some(e), e.outputIndex) then {e.outputIndex} else {})
  {
    hide About;
    var events := before + [Some(e)];
    assert forall x :: x in events <==> x in before || x == Some(e);
  }

  lemma KeysAfter(acc: Acc, e: Event)
    requires Rejection(e) == None
    ensures AccAfter(acc, e).items.Keys == acc.items.Keys + (if About(Some(e), e.outputIndex) then {e.outputIndex} else {})
  {
    hide KnownFault, MarkedFailed, WithContent, WithArguments, ItemKind, ArgumentsKind, ContentKind;
  }

  // What a completion without items of its own returns.
  function ReturnedOutputs(events: Events, r: Reply): set<int> {
    if r.output == None then Seen(events) else set i | i in Seen(events) && IsFinal(events, i)
  }

  // The output is that of the given indices in increasing order: of a final item
  // its last done event, of any other what the events say.
  ghost predicate Tells(events: Events, indices: set<int>, output: seq<Item>) {
    exists list ::
      && Lists(list, indices) && |list| == |output|
      && forall k :: 0 <= k < |list| ==>
           if IsFinal(events, list[k]) then output[k] == LastItemEvent(events, list[k]).value.item
           else Says(events, list[k], output[k])
  }

  // The reply of a successful stream, from its events alone.
  lemma ReplyTells(events: Events, e: Event, after: Events, otherwise: Fault)
    requires AllBenign(events) && Completes(Some(e))
    ensures Run(EMPTY, events + [Some(e)] + after, otherwise).Ok?
    ensures var r := Run(EMPTY, events + [Some(e)] + after, otherwise).value;
            && r.status == "completed" && r.usage == e.response.usage && r.error == e.response.error && r.output.Some?
            && (if e.response.output == None || e.response.output == Some([])
                then Tells(events, ReturnedOutputs(events, e.response), r.output.value)
                else r.output == e.response.output)
  {
    hide Rejection, AccAfter, AccAll, Run, Says, Completed, Finals, Lists;
    var rest := [Some(e)] + after;
    assert events + [Some(e)] + after == events + rest;
    RunAfterBenign(EMPTY, events, rest, otherwise);
    var acc := AccAll(EMPTY, events);
    RunHead(acc, rest, otherwise);
    CompletedParts(acc, e.response);
    if EmptyOutput(e.response) {
      CollectedTells(events, e.response);
    }
  }

  lemma CompletedParts(acc: Acc, r: Reply)
    ensures var c := Completed(acc, r);
            && c.status == "completed" && c.usage == r.usage && c.error == r.error
            && c.output == Some(if EmptyOutput(r) then Collected(acc, r) else r.output.value)
  {
    hide Collected;
  }

  lemma CollectedTells(events: Events, r: Reply)
    requires AllBenign(events)
    ensures Tells(events, ReturnedOutputs(events, r), Collected(AccAll(EMPTY, events), r))
  {
    hide Rejection, AccAfter, AccAll, Says, Listed, ReturnedOutputs, LastItemEvent, Finals, Lists, Tells;
    var acc := AccAll(EMPTY, events);
    var listed := set i | i in acc.items && Listed(acc, r, i);
    ListedAreReturned(events, r);
    var list := Ascending(listed);
    forall k | 0 <= k < |list|
      ensures if IsFinal(events, list[k]) then Finals(acc, list)[k] == LastItemEvent(events, list[k]).value.item
              else Says(events, list[k], Finals(acc, list)[k])
    {
      FinalIsTold(events, list[k]);
    }
    TellsBy(events, listed, Finals(acc, list), list);
  }

  lemma TellsBy(events: Events, indices: set<int>, output: seq<Item>, list: seq<int>)
    requires Lists(list, indices) && |list| == |output|
    requires forall k :: 0 <= k < |list| ==>
               if IsFinal(events, list[k]) then output[k] == LastItemEvent(events, list[k]).value.item
               else Says(events, list[k], output[k])
    ensures Tells(events, indices, output)
  {
    hide Lists, Says, IsFinal;
  }

  lemma FinalIsTold(events: Events, i: int)
    requires AllBenign(events)
    ensures var o := Final(AccAll(EMPTY, events), i);
            if IsFinal(events, i) then o == LastItemEvent(events, i).value.item else Says(events, i, o)
  {
    hide Rejection, AccAfter, AccAll, Says, ItemOf;
    FinalizedIsLastWord(events, i);
    ItemIsSaid(events, i);
  }

  lemma ListedAreReturned(events: Events, r: Reply)
    requires AllBenign(events)
    ensures var acc := AccAll(EMPTY, events);
            (set i | i in acc.items && Listed(acc, r, i)) == ReturnedOutputs(events, r)
  {
    hide Rejection, AccAfter, AccAll, Seen, LastItemEvent;
    var acc := AccAll(EMPTY, events);
    SeenIsAccumulated(events);
    forall i ensures i in acc.finalized <==> IsFinal(events, i) {
      FinalizedIsLastWord(events, i);
    }
  }

  // ---------- an item and its deltas ----------

  // The argument deltas for output `i`, in order.
  function ArgumentDeltas(events: Events, i: int): seq<string> {
    if events == [] then []
    else
      var n := |events| - 1;
      ArgumentDeltas(events[..n], i)
      + (if About(events[n], i) && events[n].value.kind == ARGUMENTS_DELTA then [events[n].value.delta] else [])
  }

  function TextDeltas(events: Events, i: int, c: nat): seq<string> {
    if events == [] then []
    else
      var n := |events| - 1;
      TextDeltas(events[..n], i, c)
      + (if AboutPart(events[n], i, c) && events[n].value.kind == TEXT_DELTA then [events[n].value.delta] else [])
  }

  // Nothing but deltas is said of output `i`.
  predicate OnlyDeltas(events: Events, i: int) {
    forall k :: 0 <= k < |events| && About(events[k], i) ==>
      events[k].value.kind == ARGUMENTS_DELTA || events[k].value.kind == TEXT_DELTA
  }

  predicate Adds(e: Option<Event>, i: int) {
    About(e, i) && e.value.kind == ITEM_ADDED
  }

  lemma {:induction false} SinceAdded(before: Events, added: Event, later: Events, i: int, c: nat)
    requires Adds(Some(added), i) && OnlyDeltas(later, i)
    ensures var events := before + [Some(added)] + later;
            && Arguments(events, i) == Said(added.item.arguments, ArgumentDeltas(later, i))
            && Text(events, i, c) == Said(TextAt(added.item.content, c), TextDeltas(later, i, c))
            && LastItemEvent(events, i) == Some(added)
    decreases |later|
  {
    var events := before + [Some(added)] + later;
    if later == [] {
      assert events[..|events| - 1] == before;
    } else {
      var n := |later| - 1;
      SinceAdded(before, added, later[..n], i, c);
      assert events[..|events| - 1] == before + [Some(added)] + later[..n];
      assert events[|events| - 1] == later[n];
    }
  }

  // After an item was added, deltas for it among events about other outputs, and
  // a completion without a list: the reply holds the item under its call ID and
  // name, with every delta at the end of its arguments and of its texts.
  lemma AddedThenDeltas(before: Events, added: Event, later: Events, e: Event, after: Events, otherwise: Fault, i: int)
    requires var events := before + [Some(added)] + later;
             AllBenign(events) && Adds(Some(added), i) && OnlyDeltas(later, i)
    requires Completes(Some(e)) && e.response.output == None
    ensures var run := Run(EMPTY, before + [Some(added)] + later + [Some(e)] + after, otherwise);
            && run.Ok? && run.value.output.Some?
            && exists k :: 0 <= k < |run.value.output.value| && Completion(run.value.output.value[k], added.item, later, i)
  {
    hide Rejection, AllBenign, Run, Seen, Says;
    var events := before + [Some(added)] + later;
    ReplyTells(events, e, after, otherwise);
    var output := Run(EMPTY, events + [Some(e)] + after, otherwise).value.output.value;
    AddedIsSeen(before, added, later, i);
    var list :| Lists(list, Seen(events)) && |list| == |output|
                && forall k :: 0 <= k < |list| ==>
                     if IsFinal(events, list[k]) then output[k] == LastItemEvent(events, list[k]).value.item
                     else Says(events, list[k], output[k]);
    ListedSomewhere(list, Seen(events), i);
    var k :| 0 <= k < |list| && list[k] == i;
    AddedIsCompleted(before, added, later, i, output[k]);
  }

  ghost predicate Completion(o: Item, item: Item, later: Events, i: int) {
    && o.callId == item.callId && o.name == item.name
    && o.arguments == item.arguments + Concat(ArgumentDeltas(later, i))
    && forall c: nat :: TextAt(o.content, c) == TextAt(item.content, c) + Concat(TextDeltas(later, i, c))
  }

  lemma ListedSomewhere(list: seq<int>, indices: set<int>, i: int)
    requires Lists(list, indices) && i in indices
    ensures exists k :: 0 <= k < |list| && list[k] == i
  {
    hide Increasing;
    assert i in list;
  }

  lemma AddedIsSeen(before: Events, added: Event, later: Events, i: int)
    requires Adds(Some(added), i)
    ensures i in Seen(before + [Some(added)] + later)
  {
    hide ItemKind, ArgumentsKind, ContentKind;
    var events := before + [Some(added)] + later;
    assert events[|before|] == Some(added);
    assert Some(added) in events;
  }

  lemma AddedIsCompleted(before: Events, added: Event, later: Events, i: int, o: Item)
    requires Adds(Some(added), i) && OnlyDeltas(later, i)
    requires var events := before + [Some(added)] + later;
             if IsFinal(events, i) then o == LastItemEvent(events, i).value.item else Says(events, i, o)
    ensures Completion(o, added.item, later, i)
  {
    hide Arguments, Text, LastItemEvent, ArgumentDeltas, TextDeltas, About, OnlyDeltas, Concat;
    var events := before + [Some(added)] + later;
    SinceAdded(before, added, later, i, 0);
    forall c: nat ensures TextAt(o.content, c) == TextAt(added.item.content, c) + Concat(TextDeltas(later, i, c)) {
      SinceAdded(before, added, later, i, c);
    }
  }

  // A done event replaces what the deltas before it had built.
  lemma DoneReplaces(events: Events, e: Event, i: int, c: nat)
    requires AllBenign(events + [Some(e)])
    ensures var o := ItemOf(AccAll(EMPTY, events + [Some(e)]), i);
            && (About(Some(e), i) && e.kind == ARGUMENTS_DONE ==> o.arguments == e.arguments)
            && (AboutPart(Some(e), i, c) && e.kind == TEXT_DONE ==> c < |o.content| && o.content[c].text == e.text)
            && (AboutPart(Some(e), i, c) && e.kind == PART_DONE ==> c < |o.content| && o.content[c] == e.part)
  {
    hide Rejection, AccAfter, AccAll, LastItemEvent, OutputKind;
    var all := events + [Some(e)];
    assert all[..|events|] == events;
    ItemIsSaid(all, i);
    NothingSince();
    if AboutPart(Some(e), i, c) {
      PartIsCounted(all, events, e, i, c);
      KindsDiffer(e.kind);
      var o := ItemOf(AccAll(EMPTY, all), i);
      assert TextAt(o.content, c) == Whole(Text(all, i, c)) && KindAt(o.content, c) == PartKind(all, i, c);
    }
  }

  lemma PartIsCounted(all: Events, events: Events, e: Event, i: int, c: nat)
    requires Snoc(all, events, e) && AboutPart(Some(e), i, c)
    ensures c < PartCount(all, i)
  {
    KindsDiffer(e.kind);
  }
}
