/** The state machine of the streaming Responses reader
    (internal/provider/openai/responses.go, `readEvents`): partial and
    finalized output items, and the one event that completes a stream. */
module Responses {
  import opened Basics
  import opened Schema
  import opened Framing

  datatype Content = Content(kind: string, text: string)

  datatype Item = Item(kind: string, callId: string, name: string, arguments: string, content: seq<Content>)

  const NO_ITEM := Item("", "", "", "", [])
  const NO_CONTENT := Content("", "")

  // An error object that is present and not null.
  datatype ErrorBody = ErrorBody(code: string, kind: string)

  // `output` is None when the field is absent or null.
  datatype Reply = Reply(
    status: string,
    error: Option<ErrorBody>,
    output: Option<seq<Item>>,
    usage: Option<TokenUsage>)

  datatype Event = Event(
    kind: string,
    response: Reply,
    error: Option<ErrorBody>,
    code: string,
    outputIndex: int,
    contentIndex: int,
    item: Item,
    part: Content,
    delta: string,
    text: string,
    arguments: string)

  datatype Fault =
    | Subscription(code: string)
    | MalformedEvent
    | CompletionMarkedFailed
    | StreamFailed
    | BadOutputIndex
    | BadContentIndex
    | ReadFailed
    | EndedEarly

  const MAX_CONTENT := 4096

  predicate KnownCode(code: string) {
    code == "context_length_exceeded"
    || code == "subscription_sharing_usage_limit_exceeded"
    || code == "subscription_sharing_usage_unavailable"
  }

  function ErrorCode(e: Option<ErrorBody>): string {
    match e
    case None => ""
    case Some(b) => if b.code != "" then b.code else b.kind
  }

  // The first of the event's codes that is known.
  function KnownFault(e: Event): Option<Fault> {
    if KnownCode(e.code) then Some(Subscription(e.code))
    else if KnownCode(ErrorCode(e.error)) then Some(Subscription(ErrorCode(e.error)))
    else if KnownCode(ErrorCode(e.response.error)) then Some(Subscription(ErrorCode(e.response.error)))
    else None
  }

  predicate MarkedFailed(r: Reply) {
    (r.status != "" && r.status != "completed") || r.error.Some?
  }

  // ---------- kinds of events ----------

  const COMPLETED := "response.completed"

  predicate FailureKind(kind: string) {
    kind == "response.failed" || kind == "response.incomplete" || kind == "error"
  }

  const ITEM_ADDED := "response.output_item.added"
  const ITEM_DONE := "response.output_item.done"
  const ARGUMENTS_DELTA := "response.function_call_arguments.delta"
  const ARGUMENTS_DONE := "response.function_call_arguments.done"
  const TEXT_DELTA := "response.output_text.delta"
  const TEXT_DONE := "response.output_text.done"
  const PART_ADDED := "response.content_part.added"
  const PART_DONE := "response.content_part.done"

  predicate ItemKind(kind: string) {
    kind == ITEM_ADDED || kind == ITEM_DONE
  }

  predicate ArgumentsKind(kind: string) {
    kind == ARGUMENTS_DELTA || kind == ARGUMENTS_DONE
  }

  predicate ContentKind(kind: string) {
    kind == TEXT_DELTA || kind == TEXT_DONE || kind == PART_ADDED || kind == PART_DONE
  }

  // ---------- the accumulated items ----------

  datatype Acc = Acc(items: map<int, Item>, finalized: map<int, Item>)

  const EMPTY := Acc(map[], map[])

  function ItemOf(acc: Acc, i: int): Item {
    if i in acc.items then acc.items[i] else NO_ITEM
  }

  function WithArguments(o: Item, e: Event): Item {
    o.(kind := "function_call", arguments := if e.kind == ARGUMENTS_DELTA then o.arguments + e.delta else e.arguments)
  }

  // Content grows, with empty parts, until it has index n.
  function Grown(content: seq<Content>, n: nat): (r: seq<Content>)
    ensures |r| > n && |r| >= |content|
    decreases n + 1 - |content|
  {
    if |content| > n then content else Grown(content + [NO_CONTENT], n)
  }

  function PartAfter(c: Content, e: Event): Content {
    if e.kind == TEXT_DELTA then Content("output_text", c.text + e.delta)
    else if e.kind == TEXT_DONE then Content("output_text", e.text)
    else e.part
  }

  function WithContent(o: Item, e: Event): Item
    requires e.contentIndex >= 0
  {
    var grown := Grown(o.content, e.contentIndex);
    o.(kind := "message", content := grown[e.contentIndex := PartAfter(grown[e.contentIndex], e)])
  }

  // ---------- one event ----------

  datatype Verdict = Continue(acc: Acc) | Complete(reply: Reply) | Fail(fault: Fault)

  // What the event says on its own, before any item is looked at.
  function Rejection(e: Event): Option<Fault> {
    if KnownFault(e).Some? then KnownFault(e)
    else if e.kind == COMPLETED then if MarkedFailed(e.response) then Some(CompletionMarkedFailed) else None
    else if FailureKind(e.kind) then Some(StreamFailed)
    else if (ItemKind(e.kind) || ArgumentsKind(e.kind)) && e.outputIndex < 0 then Some(BadOutputIndex)
    else if ContentKind(e.kind) && !(e.outputIndex >= 0 && 0 <= e.contentIndex <= MAX_CONTENT) then Some(BadContentIndex)
    else None
  }

  function AccAfter(acc: Acc, e: Event): Acc
    requires Rejection(e) == None
  {
    var i := e.outputIndex;
    if ItemKind(e.kind) then
      Acc(acc.items[i := e.item], if e.kind == ITEM_DONE then acc.finalized[i := e.item] else acc.finalized - {i})
    else if ArgumentsKind(e.kind) then acc.(items := acc.items[i := WithArguments(ItemOf(acc, i), e)])
    else if ContentKind(e.kind) then acc.(items := acc.items[i := WithContent(ItemOf(acc, i), e)])
    else acc
  }

  ghost function Apply(acc: Acc, e: Event): Verdict {
    if Rejection(e).Some? then Fail(Rejection(e).value)
    else if e.kind == COMPLETED then Complete(Completed(acc, e.response))
    else Continue(AccAfter(acc, e))
  }

  // ---------- the completed reply ----------

  predicate Increasing(s: seq<int>) {
    forall i, j :: 0 <= i < j < |s| ==> s[i] < s[j]
  }

  ghost predicate Lists(s: seq<int>, indices: set<int>) {
    Increasing(s) && forall i :: i in indices <==> i in s
  }

  lemma {:induction false} ListsIsUnique(a: seq<int>, b: seq<int>, indices: set<int>)
    requires Lists(a, indices) && Lists(b, indices)
    ensures a == b
    decreases |a|
  {
    ListsHead(a, indices);
    ListsHead(b, indices);
    if a != [] && b != [] {
      ListsRest(a, indices);
      ListsRest(b, indices);
      ListsIsUnique(a[1..], b[1..], indices - {a[0]});
      assert a == [a[0]] + a[1..] && b == [b[0]] + b[1..];
    }
  }

  lemma ListsHead(a: seq<int>, indices: set<int>)
    requires Lists(a, indices)
    ensures a == [] <==> indices == {}
    ensures a != [] ==> a[0] in indices && forall i :: i in indices ==> a[0] <= i
  {
    if a != [] {
      assert a[0] in a;
    } else {
      assert forall i :: i !in indices;
    }
  }

  lemma ListsRest(a: seq<int>, indices: set<int>)
    requires Lists(a, indices) && a != []
    ensures Lists(a[1..], indices - {a[0]})
  {
    assert a == [a[0]] + a[1..];
    forall i ensures i in indices - {a[0]} <==> i in a[1..] {
      if i in a[1..] {
        var k :| 0 <= k < |a| - 1 && a[1..][k] == i;
        assert a[k + 1] == i;
      }
    }
  }

  function Insert(x: int, s: seq<int>): seq<int> {
    if s == [] || x < s[0] then [x] + s else [s[0]] + Insert(x, s[1..])
  }

  lemma ConsIncreasing(x: int, s: seq<int>)
    requires Increasing(s) && (s == [] || x < s[0])
    ensures Increasing([x] + s)
  {
    var r := [x] + s;
    forall i, j | 0 <= i < j < |r| ensures r[i] < r[j] {
      assert r[j] == s[j - 1] && s[0] <= s[j - 1];
    }
  }

  lemma {:induction false} InsertIncreasing(x: int, s: seq<int>)
    requires Increasing(s) && x !in s
    ensures var r := Insert(x, s); Increasing(r) && r[0] == (if s == [] || x < s[0] then x else s[0])
    decreases |s|
  {
    if s == [] || x < s[0] {
      ConsIncreasing(x, s);
    } else {
      var tail := s[1..];
      assert tail != [] ==> s[1] == tail[0];
      InsertIncreasing(x, tail);
      ConsIncreasing(s[0], Insert(x, tail));
    }
  }

  lemma {:induction false} InsertHolds(x: int, s: seq<int>, i: int)
    ensures i in Insert(x, s) <==> i == x || i in s
    decreases |s|
  {
    if s != [] && x >= s[0] {
      InsertHolds(x, s[1..], i);
      assert s == [s[0]] + s[1..];
    }
  }

  lemma InsertLists(x: int, s: seq<int>, indices: set<int>)
    requires Lists(s, indices) && x !in indices
    ensures Lists(Insert(x, s), indices + {x})
  {
    hide Increasing, Insert;
    InsertIncreasing(x, s);
    forall i ensures i in indices + {x} <==> i in Insert(x, s) {
      InsertHolds(x, s, i);
    }
  }

  ghost function Ascending(indices: set<int>): (r: seq<int>)
    ensures Lists(r, indices)
  {
    if indices == {} then []
    else
      assert (forall i :: i !in indices) ==> indices == {};
      var i :| i in indices;
      var rest := Ascending(indices - {i});
      InsertLists(i, rest, indices - {i});
      assert indices - {i} + {i} == indices;
      Insert(i, rest)
  }

  predicate Listed(acc: Acc, r: Reply, i: int) {
    i in acc.items && (r.output == None || i in acc.finalized)
  }

  function Final(acc: Acc, i: int): Item {
    if i in acc.finalized then acc.finalized[i] else ItemOf(acc, i)
  }

  function Finals(acc: Acc, indices: seq<int>): (r: seq<Item>)
    ensures |r| == |indices| && forall k :: 0 <= k < |r| ==> r[k] == Final(acc, indices[k])
  {
    seq(|indices|, k requires 0 <= k < |indices| => Final(acc, indices[k]))
  }

  // The collected items of an empty terminal list: the finalized ones, or all
  // accumulated ones when the list is absent.
  ghost function Collected(acc: Acc, r: Reply): seq<Item> {
    Finals(acc, Ascending(set i | i in acc.items && Listed(acc, r, i)))
  }

  predicate EmptyOutput(r: Reply) {
    r.output == None || r.output.value == []
  }

  ghost function Completed(acc: Acc, r: Reply): Reply {
    r.(status := "completed", output := Some(if EmptyOutput(r) then Collected(acc, r) else r.output.value))
  }

  // ---------- a whole stream ----------

  // A payload that does not decode is None; an event without a type of its own
  // takes the name its frame carries.
  function EventOf(decode: string -> Option<Event>, f: Frame): Option<Event> {
    match decode(f.payload)
    case None => None
    case Some(e) => Some(if e.kind == "" then e.(kind := f.name) else e)
  }

  function EventsOf(decode: string -> Option<Event>, frames: seq<Frame>): seq<Option<Event>> {
    if frames == [] then [] else [EventOf(decode, frames[0])] + EventsOf(decode, frames[1..])
  }

  // What the reader returns; `otherwise` when no event settles it.
  ghost function Run(acc: Acc, events: seq<Option<Event>>, otherwise: Fault): Result<Reply, Fault>
    decreases |events|
  {
    if events == [] then Err(otherwise)
    else if events[0] == None then Err(MalformedEvent)
    else match Apply(acc, events[0].value)
      case Continue(next) => Run(next, events[1..], otherwise)
      case Complete(r) => Ok(r)
      case Fail(f) => Err(f)
  }

  function EndFault(readError: bool): Fault {
    if readError then ReadFailed else EndedEarly
  }

  ghost function Read(stream: string, readError: bool, decode: string -> Option<Event>): Result<Reply, Fault> {
    Run(EMPTY, EventsOf(decode, Frames(NOTHING, StreamLines(stream), !readError)), EndFault(readError))
  }

  // ---------- success ----------

  predicate Completes(e: Option<Event>) {
    e.Some? && Rejection(e.value) == None && e.value.kind == COMPLETED
  }

  predicate Benign(e: Option<Event>) {
    e.Some? && Rejection(e.value) == None && e.value.kind != COMPLETED
  }

  predicate AllBenign(events: seq<Option<Event>>) {
    forall i :: 0 <= i < |events| ==> Benign(events[i])
  }

  function AccAll(acc: Acc, events: seq<Option<Event>>): Acc
    requires AllBenign(events)
    decreases |events|
  {
    if events == [] then acc else AccAll(AccAfter(acc, events[0].value), events[1..])
  }

  lemma {:induction false} RunAfterBenign(acc: Acc, a: seq<Option<Event>>, b: seq<Option<Event>>, otherwise: Fault)
    requires AllBenign(a)
    ensures Run(acc, a + b, otherwise) == Run(AccAll(acc, a), b, otherwise)
    decreases |a|
  {
    hide Rejection, AccAfter, Completed;
    if a == [] {
      assert a + b == b;
    } else {
      assert (a + b)[0] == a[0] && (a + b)[1..] == a[1..] + b;
      assert Benign(a[0]);
      RunAfterBenign(AccAfter(acc, a[0].value), a[1..], b, otherwise);
    }
  }

  lemma RunHead(acc: Acc, events: seq<Option<Event>>, otherwise: Fault)
    requires events != [] && !Benign(events[0])
    ensures Run(acc, events, otherwise) ==
            if Completes(events[0]) then Ok(Completed(acc, events[0].value.response))
            else if events[0] == None then Err(MalformedEvent)
            else Err(Rejection(events[0].value).value)
    ensures !Completes(events[0]) && events[0].Some? ==> Rejection(events[0].value).Some?
  {
    hide Rejection, AccAfter, Completed;
  }

  // How many events are benign before the first that is not.
  function BenignPrefix(events: seq<Option<Event>>): (k: nat)
    ensures k <= |events|
  {
    if events == [] || !Benign(events[0]) then 0 else 1 + BenignPrefix(events[1..])
  }

  lemma {:induction false} BenignPrefixIs(events: seq<Option<Event>>)
    ensures var k := BenignPrefix(events);
            AllBenign(events[..k]) && (k < |events| ==> !Benign(events[k]))
    decreases |events|
  {
    hide Benign;
    if events != [] && Benign(events[0]) {
      BenignPrefixIs(events[1..]);
      var k := 1 + BenignPrefix(events[1..]);
      assert events[..k] == [events[0]] + events[1..][..k - 1];
    }
  }

  // When an event fails the stream: for a known error code anywhere in it, for
  // a completion that is not one, for the three failure events, and for an index
  // that is out of range.
  lemma RejectedExactly(e: Event)
    ensures Rejection(e).Some? <==>
              || e.code in KNOWN || ErrorCode(e.error) in KNOWN || ErrorCode(e.response.error) in KNOWN
              || (e.kind == "response.completed"
                  && ((e.response.status != "" && e.response.status != "completed") || e.response.error.Some?))
              || e.kind in ["response.failed", "response.incomplete", "error"]
              || (e.outputIndex < 0
                  && e.kind in ["response.output_item.added", "response.output_item.done",
                                "response.function_call_arguments.delta", "response.function_call_arguments.done",
                                "response.output_text.delta", "response.output_text.done",
                                "response.content_part.added", "response.content_part.done"])
              || ((e.contentIndex < 0 || e.contentIndex > 4096)
                  && e.kind in ["response.output_text.delta", "response.output_text.done",
                                "response.content_part.added", "response.content_part.done"])
    ensures Rejection(e).Some? ==>
              match Rejection(e).value
              case Subscription(code) => code in KNOWN && code in [e.code, ErrorCode(e.error), ErrorCode(e.response.error)]
              case CompletionMarkedFailed => e.kind == "response.completed"
              case StreamFailed => e.kind in ["response.failed", "response.incomplete", "error"]
              case BadOutputIndex => e.outputIndex < 0
              case BadContentIndex => e.outputIndex < 0 || e.contentIndex < 0 || e.contentIndex > 4096
              case _ => false
  {
    hide KnownCode, ErrorCode, KNOWN;
    CodeIsKnown(e.code);
    CodeIsKnown(ErrorCode(e.error));
    CodeIsKnown(ErrorCode(e.response.error));
  }

  const KNOWN := ["context_length_exceeded", "subscription_sharing_usage_limit_exceeded",
                  "subscription_sharing_usage_unavailable"]

  lemma CodeIsKnown(code: string)
    ensures KnownCode(code) <==> code in KNOWN
  {
    if KnownCode(code) {
      assert code == KNOWN[0] || code == KNOWN[1] || code == KNOWN[2];
    }
  }

  // A stream is reported as broken off or as ended early only for its own end.
  lemma {:induction false} EndIsReported(acc: Acc, events: seq<Option<Event>>, otherwise: Fault)
    ensures var r := Run(acc, events, otherwise);
            r.Err? && (r.error == ReadFailed || r.error == EndedEarly) ==> r.error == otherwise
    decreases |events|
  {
    hide Rejection, AccAfter, Completed;
    if events != [] && events[0].Some? {
      RejectedExactly(events[0].value);
      if Benign(events[0]) {
        EndIsReported(AccAfter(acc, events[0].value), events[1..], otherwise);
      }
    }
  }

  // The events of a stream are what its frames decode to, one for one; a frame's
  // name is the type of an event that has none.
  lemma {:induction false} EventsAre(decode: string -> Option<Event>, frames: seq<Frame>)
    ensures |EventsOf(decode, frames)| == |frames|
    ensures forall k :: 0 <= k < |frames| ==>
              var e := decode(frames[k].payload);
              EventsOf(decode, frames)[k]
              == if e.Some? && e.value.kind == "" then Some(e.value.(kind := frames[k].name)) else e
    decreases |frames|
  {
    if frames != [] {
      EventsAre(decode, frames[1..]);
    }
  }

  // The first event that is not benign decides, and nothing after it matters.
  lemma FirstDecides(acc: Acc, events: seq<Option<Event>>, otherwise: Fault)
    ensures var k := BenignPrefix(events);
            AllBenign(events[..k]) && (k < |events| ==> !Benign(events[k]))
    ensures var k := BenignPrefix(events);
            Run(acc, events, otherwise) ==
            if k == |events| then Err(otherwise)
            else if Completes(events[k]) then Ok(Completed(AccAll(acc, events[..k]), events[k].value.response))
            else if events[k] == None then Err(MalformedEvent)
            else Err(Rejection(events[k].value).value)
    ensures var k := BenignPrefix(events);
            k < |events| && !Completes(events[k]) && events[k].Some? ==> Rejection(events[k].value).Some?
  {
    hide Rejection, AccAfter, Completed, AccAll, Run, Benign, Completes, BenignPrefix;
    var k := BenignPrefix(events);
    BenignPrefixIs(events);
    var rest := events[k..];
    assert events == events[..k] + rest;
    RunAfterBenign(acc, events[..k], rest, otherwise);
    if k < |events| {
      RunHead(AccAll(acc, events[..k]), rest, otherwise);
    } else {
      RunEnd(AccAll(acc, events[..k]), otherwise);
    }
  }

  lemma RunEnd(acc: Acc, otherwise: Fault)
    ensures Run(acc, [], otherwise) == Err(otherwise)
  {
  }

  // A stream succeeds exactly when a well-formed completion comes before any
  // failing event; partial output and the end of the stream never suffice.
  lemma SucceedsExactly(acc: Acc, events: seq<Option<Event>>, otherwise: Fault)
    ensures Run(acc, events, otherwise).Ok? <==>
            exists k :: 0 <= k < |events| && Completes(events[k]) && AllBenign(events[..k])
  {
    hide Rejection, AccAfter, Completed, AccAll, Run, BenignPrefix;
    FirstDecides(acc, events, otherwise);
    BenignPrefixIs(events);
    var n := BenignPrefix(events);
    if k :| 0 <= k < |events| && Completes(events[k]) && AllBenign(events[..k]) {
      assert n < k ==> events[..k][n] == events[n];
      assert k < n ==> events[..n][k] == events[k];
    }
  }

  // ---------- what a successful reply holds ----------

  lemma AccFacts(acc: Acc, e: Event)
    requires Rejection(e) == None
    ensures var a := AccAfter(acc, e);
            acc.finalized.Keys <= acc.items.Keys ==> a.finalized.Keys <= a.items.Keys
    ensures (forall i :: i in acc.items ==> i >= 0) ==> forall i :: i in AccAfter(acc, e).items ==> i >= 0
  {
    hide KnownFault, WithContent, WithArguments, ItemOf, MarkedFailed;
  }

  // Only output indices that are not negative are accumulated, and what is
  // finalized was accumulated.
  predicate Sound(acc: Acc) {
    acc.finalized.Keys <= acc.items.Keys && forall i :: i in acc.items ==> i >= 0
  }

  lemma {:induction false} AccAllSound(acc: Acc, events: seq<Option<Event>>)
    requires AllBenign(events) && Sound(acc)
    ensures Sound(AccAll(acc, events))
    decreases |events|
  {
    hide Rejection, AccAfter;
    if events != [] {
      assert Benign(events[0]);
      AccFacts(acc, events[0].value);
      AccAllSound(AccAfter(acc, events[0].value), events[1..]);
    }
  }

  // The indices whose items a completion with an empty list returns.
  function Returned(acc: Acc, r: Reply): set<int> {
    if r.output == None then acc.items.Keys else acc.finalized.Keys
  }

  // With an empty terminal list a successful stream returns, in strictly
  // increasing output index, the finalized items; when the list is absent, all
  // accumulated items, finalized where there is a final form.
  lemma OutputOfSuccess(before: seq<Option<Event>>, e: Event, after: seq<Option<Event>>, otherwise: Fault)
    requires AllBenign(before) && Completes(Some(e)) && EmptyOutput(e.response)
    ensures Run(EMPTY, before + [Some(e)] + after, otherwise).Ok?
    ensures var acc := AccAll(EMPTY, before);
            var output := Run(EMPTY, before + [Some(e)] + after, otherwise).value.output;
            exists indices ::
              Lists(indices, Returned(acc, e.response)) && (forall i :: i in indices ==> i >= 0) &&
              output == Some(Finals(acc, indices))
  {
    hide Rejection, AccAfter, AccAll, Finals, Lists, Run;
    var rest := [Some(e)] + after;
    assert before + [Some(e)] + after == before + rest;
    RunAfterBenign(EMPTY, before, rest, otherwise);
    var acc := AccAll(EMPTY, before);
    RunHead(acc, rest, otherwise);
    AccAllSound(EMPTY, before);
    var listed := set i | i in acc.items && Listed(acc, e.response, i);
    assert listed == Returned(acc, e.response);
    assert Lists(Ascending(listed), Returned(acc, e.response));
    ListedHold(Ascending(listed), listed);
  }

  lemma ListedHold(indices: seq<int>, held: set<int>)
    requires Lists(indices, held)
    ensures forall i :: i in indices ==> i in held
  {
  }

  // ---------- the last word on an item ----------

  // The last added or done event for output i.
  function LastItemEvent(events: seq<Option<Event>>, i: int): Option<Event>
    decreases |events|
  {
    if events == [] then None
    else
      var e := events[|events| - 1];
      if e.Some? && ItemKind(e.value.kind) && e.value.outputIndex == i then e
      else LastItemEvent(events[..|events| - 1], i)
  }

  lemma {:induction false} AccAllAppend(acc: Acc, a: seq<Option<Event>>, b: seq<Option<Event>>)
    requires AllBenign(a) && AllBenign(b)
    ensures AllBenign(a + b) && AccAll(acc, a + b) == AccAll(AccAll(acc, a), b)
    decreases |a|
  {
    hide Rejection, AccAfter, Benign;
    if a == [] {
      assert a + b == b;
    } else {
      assert a == [a[0]] + a[1..];
      assert (a + b)[0] == a[0] && (a + b)[1..] == a[1..] + b;
      assert AllBenign(a[1..]);
      BenignHasNoRejection(a[0]);
      AccAllAppend(AccAfter(acc, a[0].value), a[1..], b);
    }
  }

  lemma BenignHasNoRejection(e: Option<Event>)
    requires Benign(e)
    ensures e.Some? && Rejection(e.value) == None
  {
    hide Rejection;
  }

  lemma AccLast(events: seq<Option<Event>>)
    requires AllBenign(events) && events != []
    ensures var n := |events| - 1;
            Benign(events[n]) && AllBenign(events[..n]) &&
            AccAll(EMPTY, events) == AccAfter(AccAll(EMPTY, events[..n]), events[n].value)
  {
    hide Rejection, AccAfter, Benign;
    var n := |events| - 1;
    var acc := AccAll(EMPTY, events[..n]);
    assert events == events[..n] + [events[n]];
    assert AllBenign([events[n]]);
    AccAllAppend(EMPTY, events[..n], [events[n]]);
    assert [events[n]][1..] == [];
  }

  lemma FinalizedAfter(acc: Acc, e: Event, i: int)
    requires Rejection(e) == None
    ensures var a := AccAfter(acc, e);
            if ItemKind(e.kind) && e.outputIndex == i then
              (i in a.finalized <==> e.kind == ITEM_DONE) && (i in a.finalized ==> a.finalized[i] == e.item)
            else
              (i in a.finalized <==> i in acc.finalized) && (i in a.finalized ==> a.finalized[i] == acc.finalized[i])
  {
    hide KnownFault, WithContent, WithArguments, ItemOf, MarkedFailed;
  }

  // An item is finalized exactly when the last word on its index is a done
  // event, and then it is the item of that event, whatever partial deltas came
  // before or after it.
  lemma {:induction false} FinalizedIsLastWord(events: seq<Option<Event>>, i: int)
    requires AllBenign(events)
    ensures var acc, last := AccAll(EMPTY, events), LastItemEvent(events, i);
            (i in acc.finalized <==> last.Some? && last.value.kind == ITEM_DONE) &&
            (i in acc.finalized ==> acc.finalized[i] == last.value.item)
    decreases |events|
  {
    hide Rejection, AccAfter, AccAll;
    if events == [] {
      AccAllNone();
    } else {
      var n := |events| - 1;
      AccLast(events);
      FinalizedIsLastWord(events[..n], i);
      FinalizedAfter(AccAll(EMPTY, events[..n]), events[n].value, i);
    }
  }

  lemma AccAllNone()
    ensures AccAll(EMPTY, []) == EMPTY
  {
  }

  // ---------- how text is cut into deltas ----------

  predicate DeltaKind(kind: string) {
    kind == TEXT_DELTA || kind == ARGUMENTS_DELTA
  }

  function Concat(parts: seq<string>): string {
    if parts == [] then "" else parts[0] + Concat(parts[1..])
  }

  // The same delta sent in several events.
  function Cut(e: Event, parts: seq<string>): seq<Option<Event>> {
    if parts == [] then [] else [Some(e.(delta := parts[0]))] + Cut(e, parts[1..])
  }

  lemma RejectionIgnoresDelta(e: Event, d: string)
    ensures Rejection(e.(delta := d)) == Rejection(e)
  {
  }

  lemma GrownTwice(content: seq<Content>, n: nat)
    ensures |content| > n ==> Grown(content, n) == content
  {
  }

  lemma TwoDeltas(acc: Acc, e: Event, a: string, b: string)
    requires Rejection(e) == None && DeltaKind(e.kind)
    ensures Rejection(e.(delta := a)) == Rejection(e.(delta := b)) == Rejection(e.(delta := a + b)) == None
    ensures AccAfter(AccAfter(acc, e.(delta := a)), e.(delta := b)) == AccAfter(acc, e.(delta := a + b))
  {
    hide KnownFault, MarkedFailed, Grown, Rejection;
    RejectionIgnoresDelta(e, a);
    RejectionIgnoresDelta(e, b);
    RejectionIgnoresDelta(e, a + b);
    var o := ItemOf(acc, e.outputIndex);
    if e.kind == TEXT_DELTA {
      ContentIndexIs(e);
      TwoTexts(o, e, a, b);
    } else {
      assert o.arguments + a + b == o.arguments + (a + b);
    }
  }

  lemma ContentIndexIs(e: Event)
    requires Rejection(e) == None && e.kind == TEXT_DELTA
    ensures e.contentIndex >= 0
  {
    hide KnownFault, MarkedFailed;
  }

  lemma TwoTexts(o: Item, e: Event, a: string, b: string)
    requires e.kind == TEXT_DELTA && e.contentIndex >= 0
    ensures WithContent(WithContent(o, e.(delta := a)), e.(delta := b)) == WithContent(o, e.(delta := a + b))
  {
    hide Grown;
    var i := e.contentIndex;
    var grown := Grown(o.content, i);
    var once := WithContent(o, e.(delta := a));
    GrownTwice(once.content, i);
    assert grown[i].text + a + b == grown[i].text + (a + b);
    assert grown[i := PartAfter(grown[i], e.(delta := a))][i := PartAfter(once.content[i], e.(delta := b))]
        == grown[i := PartAfter(grown[i], e.(delta := a + b))];
  }

  lemma {:induction false} CutAcc(acc: Acc, e: Event, parts: seq<string>)
    requires Rejection(e) == None && DeltaKind(e.kind) && parts != []
    ensures AllBenign(Cut(e, parts)) && Rejection(e.(delta := Concat(parts))) == None
    ensures AccAll(acc, Cut(e, parts)) == AccAfter(acc, e.(delta := Concat(parts)))
    decreases |parts|
  {
    hide Rejection, AccAfter;
    var cut, d := Cut(e, parts), parts[0];
    RejectionIgnoresDelta(e, d);
    RejectionIgnoresDelta(e, Concat(parts));
    var head := e.(delta := d);
    var next := AccAfter(acc, head);
    assert cut[0] == Some(head) && cut[1..] == Cut(e, parts[1..]);
    if |parts| == 1 {
      assert cut[1..] == [] && Concat(parts[1..]) == "" && d + "" == d;
    } else {
      CutAcc(next, e, parts[1..]);
      TwoDeltas(acc, e, d, Concat(parts[1..]));
      assert forall i :: 1 <= i < |cut| ==> cut[i] == cut[1..][i - 1];
    }
  }

  lemma CutRun(acc: Acc, e: Event, parts: seq<string>, after: seq<Option<Event>>, otherwise: Fault)
    requires DeltaKind(e.kind) && parts != []
    ensures Run(acc, Cut(e, parts) + after, otherwise) ==
            Run(acc, [Some(e.(delta := Concat(parts)))] + after, otherwise)
  {
    hide Rejection, AccAfter, Completed, AccAll, Run;
    var whole := e.(delta := Concat(parts));
    RejectionIgnoresDelta(e, Concat(parts));
    RejectionIgnoresDelta(e, parts[0]);
    var cut := Cut(e, parts);
    if Rejection(e) == None {
      CutAcc(acc, e, parts);
      RunAfterBenign(acc, cut, after, otherwise);
      assert AllBenign([Some(whole)]);
      RunAfterBenign(acc, [Some(whole)], after, otherwise);
      AccOne(acc, whole);
    } else {
      RunHead(acc, cut + after, otherwise);
      RunHead(acc, [Some(whole)] + after, otherwise);
    }
  }

  lemma AccOne(acc: Acc, e: Event)
    requires Benign(Some(e))
    ensures AccAll(acc, [Some(e)]) == AccAfter(acc, e)
  {
    hide Rejection, AccAfter;
    assert [Some(e)][1..] == [];
  }

  // How a text or an argument string is cut into deltas cannot change the
  // result, anywhere in any stream.
  lemma DeltaCutsDoNotMatter(before: seq<Option<Event>>, e: Event, parts: seq<string>,
                             after: seq<Option<Event>>, otherwise: Fault)
    requires DeltaKind(e.kind) && parts != []
    ensures Run(EMPTY, before + Cut(e, parts) + after, otherwise) ==
            Run(EMPTY, before + [Some(e.(delta := Concat(parts)))] + after, otherwise)
  {
    hide Rejection, AccAfter, Completed, AccAll, Run, Benign, Completes, Cut, Concat, DeltaKind;
    var one := [Some(e.(delta := Concat(parts)))];
    var k := BenignPrefix(before);
    BenignPrefixIs(before);
    var cut := Cut(e, parts);
    assert before + cut + after == before + (cut + after);
    assert before + one + after == before + (one + after);
    if k == |before| {
      assert before[..k] == before;
      RunAfterBenign(EMPTY, before, cut + after, otherwise);
      RunAfterBenign(EMPTY, before, one + after, otherwise);
      CutRun(AccAll(EMPTY, before), e, parts, after, otherwise);
    } else {
      DecidedBefore(before, cut + after, one + after, otherwise);
    }
  }

  lemma DecidedBefore(before: seq<Option<Event>>, a: seq<Option<Event>>, b: seq<Option<Event>>, otherwise: Fault)
    requires BenignPrefix(before) < |before|
    ensures Run(EMPTY, before + a, otherwise) == Run(EMPTY, before + b, otherwise)
  {
    hide Rejection, AccAfter, Completed, AccAll, Run, Benign, Completes, BenignPrefix;
    var k := BenignPrefix(before);
    BenignPrefixIs(before);
    var head, tail := before[..k], before[k..];
    assert before + a == head + (tail + a);
    assert before + b == head + (tail + b);
    RunAfterBenign(EMPTY, head, tail + a, otherwise);
    RunAfterBenign(EMPTY, head, tail + b, otherwise);
    RunHead(AccAll(EMPTY, head), tail + a, otherwise);
    RunHead(AccAll(EMPTY, head), tail + b, otherwise);
  }

  // What is known about one output.
  function Slot(acc: Acc, i: int): (Option<Item>, Option<Item>) {
    (if i in acc.items then Some(acc.items[i]) else None,
     if i in acc.finalized then Some(acc.finalized[i]) else None)
  }

  lemma SlotsAreAll(a: Acc, b: Acc)
    requires forall i :: Slot(a, i) == Slot(b, i)
    ensures a == b
  {
    forall i ensures i in a.items <==> i in b.items {
      assert Slot(a, i) == Slot(b, i);
    }
    forall i ensures i in a.finalized <==> i in b.finalized {
      assert Slot(a, i) == Slot(b, i);
    }
    forall i | i in a.items ensures a.items[i] == b.items[i] {
      assert Slot(a, i) == Slot(b, i);
    }
    forall i | i in a.finalized ensures a.finalized[i] == b.finalized[i] {
      assert Slot(a, i) == Slot(b, i);
    }
    assert a.items == b.items && a.finalized == b.finalized;
  }

  lemma TouchesOneItem(acc: Acc, e: Event, i: int)
    requires Rejection(e) == None && i != e.outputIndex
    ensures Slot(AccAfter(acc, e), i) == Slot(acc, i)
  {
    hide KnownFault, WithContent, WithArguments, ItemOf, MarkedFailed;
  }

  // An event reads only its own output.
  lemma ReadsOneItem(acc: Acc, other: Acc, e: Event)
    requires Rejection(e) == None && Slot(acc, e.outputIndex) == Slot(other, e.outputIndex)
    ensures Slot(AccAfter(acc, e), e.outputIndex) == Slot(AccAfter(other, e), e.outputIndex)
  {
    hide KnownFault, WithContent, WithArguments, MarkedFailed;
  }

  // Events about different outputs may arrive in either order.
  lemma OutputsAreIndependent(acc: Acc, e: Event, f: Event)
    requires Rejection(e) == None && Rejection(f) == None && e.outputIndex != f.outputIndex
    ensures AccAfter(AccAfter(acc, e), f) == AccAfter(AccAfter(acc, f), e)
  {
    hide Rejection, AccAfter, Slot;
    var afterE, afterF := AccAfter(acc, e), AccAfter(acc, f);
    var ef, fe := AccAfter(afterE, f), AccAfter(afterF, e);
    TouchesOneItem(acc, f, e.outputIndex);
    TouchesOneItem(acc, e, f.outputIndex);
    ReadsOneItem(acc, afterF, e);
    ReadsOneItem(acc, afterE, f);
    forall i ensures Slot(ef, i) == Slot(fe, i) {
      if i != e.outputIndex {
        TouchesOneItem(acc, e, i);
        TouchesOneItem(afterF, e, i);
      }
      if i != f.outputIndex {
        TouchesOneItem(acc, f, i);
        TouchesOneItem(afterE, f, i);
      }
    }
    SlotsAreAll(ef, fe);
  }

  // A stream written frame by frame is read as the events of its frames.
  lemma StreamIsRead(frames: seq<Frame>, readError: bool, decode: string -> Option<Event>)
    requires forall i :: 0 <= i < |frames| ==> Writable(frames[i])
    ensures Read(EncodeStream(frames), readError, decode) ==
            Run(EMPTY, EventsOf(decode, frames), EndFault(readError))
  {
    hide Writable, Run, EncodeStream, Frames, StreamLines;
    StreamRoundTrip(frames, !readError);
  }
}
