/** `readEvents` of internal/provider/openai/responses.go: the line loop and the
    event decoder it shares its variables with. */
module ResponseReader {
  import opened Basics
  import opened Strings
  import opened Framing
  import opened Responses

  // What dispatching the pending lines settles, and the items after it.
  ghost function Effect(acc: Acc, p: Pending, decode: string -> Option<Event>): (Option<Result<Reply, Fault>>, Acc) {
    if Dispatched(p) == [] then (None, acc)
    else
      match EventOf(decode, Dispatched(p)[0])
      case None => (Some(Err(MalformedEvent)), acc)
      case Some(e) => Settled(acc, Apply(acc, e))
  }

  function Settled(acc: Acc, v: Verdict): (Option<Result<Reply, Fault>>, Acc) {
    match v
    case Continue(next) => (None, next)
    case Complete(r) => (Some(Ok(r)), acc)
    case Fail(f) => (Some(Err(f)), acc)
  }

  lemma EventsOfCons(decode: string -> Option<Event>, f: Frame, rest: seq<Frame>)
    ensures EventsOf(decode, [f] + rest) == [EventOf(decode, f)] + EventsOf(decode, rest)
  {
    assert ([f] + rest)[1..] == rest;
  }

  lemma RunCons(acc: Acc, e: Option<Event>, rest: seq<Option<Event>>, otherwise: Fault)
    ensures Run(acc, [e] + rest, otherwise) ==
            match e
            case None => Err(MalformedEvent)
            case Some(ev) =>
              match Apply(acc, ev)
              case Continue(next) => Run(next, rest, otherwise)
              case Complete(r) => Ok(r)
              case Fail(f) => Err(f)
  {
    hide Apply;
    assert ([e] + rest)[1..] == rest;
  }

  // The frames still to come, after one dispatch.
  lemma RunEffect(acc: Acc, p: Pending, rest: seq<Frame>, decode: string -> Option<Event>, otherwise: Fault)
    ensures var (r, next) := Effect(acc, p, decode);
            Run(acc, EventsOf(decode, Dispatched(p) + rest), otherwise) ==
            if r.Some? then r.value else Run(next, EventsOf(decode, rest), otherwise)
  {
    hide Apply, Run, EventsOf, EventOf, Join;
    if Dispatched(p) == [] {
      assert Dispatched(p) + rest == rest;
    } else {
      var f := Dispatched(p)[0];
      EventsOfCons(decode, f, rest);
      RunCons(acc, EventOf(decode, f), EventsOf(decode, rest), otherwise);
    }
  }

  function Sorted(s: seq<int>): seq<int> {
    if s == [] then [] else Insert(s[|s| - 1], Sorted(s[..|s| - 1]))
  }

  class EventReader {
    var items: map<int, Item>
    var finalized: map<int, Item>
    var data: seq<string>
    var name: string

    function State(): Acc
      reads this
    {
      Acc(items, finalized)
    }

    ghost function Waiting(): Pending
      reads this
    {
      Pending(data, name)
    }

    constructor ()
      ensures State() == EMPTY && Waiting() == NOTHING
    {
      items, finalized, data, name := map[], map[], [], "";
    }

    // The items of an empty terminal list. The range over the map visits the
    // indices in any order; sort.Ints puts them right.
    method Collect(r: Reply) returns (output: seq<Item>)
      ensures output == Collected(State(), r)
    {
      hide Listed, Insert, Increasing, Lists, Final;
      var rest, indices := items.Keys, [];
      ghost var held: set<int> := {};
      NoneListed();
      while rest != {}
        invariant rest <= items.Keys
        invariant held == set i | i in items && i !in rest && Listed(State(), r, i)
        invariant Lists(Sorted(indices), held)
        decreases |rest|
      {
        assert (forall i :: i !in rest) ==> rest == {};
        var i :| i in rest;
        rest := rest - {i};
        if r.output == None || i in finalized {
          ListedIs(State(), r, i);
          InsertLists(i, Sorted(indices), held);
          SortedSnoc(indices, i);
          indices, held := indices + [i], held + {i};
        } else {
          ListedIs(State(), r, i);
        }
      }
      indices := Sorted(indices);
      assert held == set i | i in State().items && Listed(State(), r, i);
      ListsIsUnique(indices, Ascending(held), held);
      output := [];
      for k := 0 to |indices|
        invariant |output| == k
        invariant forall j :: 0 <= j < k ==> output[j] == Final(State(), indices[j])
      {
        ListedAt(indices, held, k);
        FinalIs(State(), indices[k]);
        output := output + [if indices[k] in finalized then finalized[indices[k]] else items[indices[k]]];
      }
      assert output == Finals(State(), indices);
    }

    // One decoded event.
    method Handle(e: Event) returns (r: Option<Result<Reply, Fault>>)
      modifies this`items, this`finalized
      ensures r == Settled(old(State()), Apply(old(State()), e)).0
      ensures State() == Settled(old(State()), Apply(old(State()), e)).1
    {
      hide KnownFault, Grown, PartAfter, Collected, MarkedFailed, EmptyOutput;
      var known := KnownFault(e);
      if known.Some? {
        return Some(Err(known.value));
      }
      var i := e.outputIndex;
      if e.kind == COMPLETED {
        if MarkedFailed(e.response) {
          return Some(Err(CompletionMarkedFailed));
        }
        var reply := e.response.(status := "completed");
        if EmptyOutput(e.response) {
          var output := Collect(e.response);
          reply := reply.(output := Some(output));
        }
        CompletedIs(State(), e.response);
        return Some(Ok(reply));
      } else if FailureKind(e.kind) {
        return Some(Err(StreamFailed));
      } else if ItemKind(e.kind) {
        if i < 0 {
          return Some(Err(BadOutputIndex));
        }
        items := items[i := e.item];
        if e.kind == ITEM_DONE {
          finalized := finalized[i := e.item];
        } else {
          finalized := finalized - {i};
        }
      } else if ArgumentsKind(e.kind) {
        if i < 0 {
          return Some(Err(BadOutputIndex));
        }
        var o := ItemOf(State(), i).(kind := "function_call");
        if e.kind == ARGUMENTS_DELTA {
          o := o.(arguments := o.arguments + e.delta);
        } else {
          o := o.(arguments := e.arguments);
        }
        items := items[i := o];
      } else if ContentKind(e.kind) {
        if i < 0 || e.contentIndex < 0 || e.contentIndex > MAX_CONTENT {
          return Some(Err(BadContentIndex));
        }
        var o := SetPart(ItemOf(State(), i), e);
        items := items[i := o];
      }
      r := None;
    }

    // The pending lines are dispatched, at a blank line or at the end.
    method Decode(decode: string -> Option<Event>) returns (r: Option<Result<Reply, Fault>>)
      modifies this
      ensures Waiting() == NOTHING
      ensures (r, State()) == Effect(old(State()), old(Waiting()), decode)
    {
      hide Apply, Join;
      if data == [] {
        name := "";
        return None;
      }
      var payload, frameName := Join(data), name;
      data, name := [], "";
      if payload == DONE {
        return None;
      }
      var e := decode(payload);
      if e == None {
        return Some(Err(MalformedEvent));
      }
      r := Handle(if e.value.kind == "" then e.value.(kind := frameName) else e.value);
    }
  }

  lemma NoneListed()
    ensures Lists(Sorted([]), {})
  {
  }

  lemma ListedIs(acc: Acc, r: Reply, i: int)
    ensures Listed(acc, r, i) <==> i in acc.items && (r.output == None || i in acc.finalized)
  {
  }

  lemma SortedSnoc(s: seq<int>, x: int)
    ensures Sorted(s + [x]) == Insert(x, Sorted(s))
  {
    assert (s + [x])[..|s|] == s;
  }

  lemma ListedAt(indices: seq<int>, held: set<int>, k: nat)
    requires Lists(indices, held) && k < |indices|
    ensures indices[k] in held
  {
    assert indices[k] in indices;
  }

  lemma FinalIs(acc: Acc, i: int)
    requires i in acc.items
    ensures Final(acc, i) == if i in acc.finalized then acc.finalized[i] else acc.items[i]
  {
  }

  lemma CompletedIs(acc: Acc, r: Reply)
    ensures Completed(acc, r) ==
            if EmptyOutput(r) then r.(status := "completed", output := Some(Collected(acc, r)))
            else r.(status := "completed")
  {
  }

  // The part an event addresses; the parts before it are filled in.
  method SetPart(o: Item, e: Event) returns (r: Item)
    requires e.contentIndex >= 0
    ensures r == WithContent(o, e)
  {
    var content := o.content;
    while |content| <= e.contentIndex
      invariant Grown(content, e.contentIndex) == Grown(o.content, e.contentIndex)
      decreases e.contentIndex - |content|
    {
      content := content + [NO_CONTENT];
    }
    var part := content[e.contentIndex];
    if e.kind == TEXT_DELTA {
      part := part.(kind := "output_text", text := part.text + e.delta);
    } else if e.kind == TEXT_DONE {
      part := part.(kind := "output_text", text := e.text);
    } else {
      part := e.part;
    }
    r := o.(kind := "message", content := content[e.contentIndex := part]);
  }

  lemma FramesBlank(p: Pending, rest: seq<string>, atEnd: bool)
    ensures Frames(p, [""] + rest, atEnd) == Dispatched(p) + Frames(NOTHING, rest, atEnd)
  {
    hide Absorb, Dispatched;
    assert ([""] + rest)[1..] == rest;
  }

  lemma FramesField(p: Pending, line: string, rest: seq<string>, atEnd: bool)
    requires line != ""
    ensures Frames(p, [line] + rest, atEnd) == Frames(Absorb(p, line), rest, atEnd)
  {
    hide Absorb, Dispatched;
    assert ([line] + rest)[1..] == rest;
  }

  lemma FramesEnd(p: Pending, atEnd: bool)
    ensures Frames(p, [], atEnd) == if atEnd then Dispatched(p) + [] else []
  {
    hide Absorb, Dispatched;
  }

  // What is left to read.
  ghost function Remaining(acc: Acc, p: Pending, lines: seq<string>, readError: bool,
                           decode: string -> Option<Event>): Result<Reply, Fault>
  {
    Run(acc, EventsOf(decode, Frames(p, lines, !readError)), EndFault(readError))
  }

  method ReadEvents(stream: string, readError: bool, decode: string -> Option<Event>)
    returns (r: Result<Reply, Fault>)
    ensures r == Read(stream, readError, decode)
    ensures r == Err(ReadFailed) ==> readError
    ensures r == Err(EndedEarly) ==> !readError
  {
    hide Run, Frames, ScanLines, Absorb, Effect, EventsOf, TrimSpace;
    EndIsReported(EMPTY, EventsOf(decode, Frames(NOTHING, StreamLines(stream), !readError)), EndFault(readError));
    var scanned := ScanLines(stream);
    ghost var lines := StreamLines(stream);
    var reader := new EventReader();
    var firstLine := true;
    for i := 0 to |scanned|
      invariant firstLine == (i == 0) && |lines| == |scanned|
      invariant Read(stream, readError, decode) ==
                Remaining(reader.State(), reader.Waiting(), lines[i..], readError, decode)
      invariant fresh(reader)
    {
      var line := scanned[i];
      if firstLine {
        line := TrimPrefix(line, BOM);
        firstLine := false;
      }
      assert line == lines[i] && lines[i..] == [line] + lines[i + 1..];
      ghost var acc, waiting := reader.State(), reader.Waiting();
      if line == "" {
        FramesBlank(waiting, lines[i + 1..], !readError);
        RunEffect(acc, waiting, Frames(NOTHING, lines[i + 1..], !readError), decode, EndFault(readError));
        var settled := reader.Decode(decode);
        if settled.Some? {
          return settled.value;
        }
      } else {
        FramesField(waiting, line, lines[i + 1..], !readError);
        AbsorbIs(waiting, line);
        if HasPrefix(line, "data:") {
          reader.data := reader.data + [TrimPrefix(TrimPrefix(line, "data:"), " ")];
        } else if HasPrefix(line, "event:") {
          reader.name := TrimSpace(TrimPrefix(line, "event:"));
        }
      }
    }
    ghost var acc, waiting := reader.State(), reader.Waiting();
    assert lines[|scanned|..] == [];
    FramesEnd(waiting, !readError);
    RunNothing(acc, decode, EndFault(readError));
    if readError {
      return Err(ReadFailed);
    }
    RunEffect(acc, waiting, [], decode, EndFault(readError));
    var settled := reader.Decode(decode);
    if settled.Some? {
      return settled.value;
    }
    RunNothing(reader.State(), decode, EndFault(readError));
    r := Err(EndedEarly);
  }

  lemma RunNothing(acc: Acc, decode: string -> Option<Event>, otherwise: Fault)
    ensures Run(acc, EventsOf(decode, []), otherwise) == Err(otherwise)
  {
  }

  lemma AbsorbIs(p: Pending, line: string)
    ensures Absorb(p, line) ==
            if HasPrefix(line, "data:") then Pending(p.data + [TrimPrefix(TrimPrefix(line, "data:"), " ")], p.name)
            else if HasPrefix(line, "event:") then Pending(p.data, TrimSpace(TrimPrefix(line, "event:")))
            else p
  {
    hide TrimSpace;
  }
}
