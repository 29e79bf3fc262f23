/** Which histories are legal, message by message and without grouping
    (internal/context/builder.go, `units`). */
module Legality {
  import opened Schema
  import opened Turns

  predicate NamesACall(calls: seq<ToolCall>, id: string) {
    exists j :: 0 <= j < |calls| && calls[j].id == id
  }

  // The calls of a message have nonempty and different IDs, only the assistant
  // makes them, and as many messages follow as there are calls: results of the
  // user, each for another of the calls.
  predicate Answered(h: seq<Message>, i: nat)
    requires i < |h|
  {
    var calls := h[i].toolCalls;
    calls != [] ==>
      && h[i].role == "assistant" && h[i].toolCallId == ""
      && (forall j :: 0 <= j < |calls| ==> calls[j].id != "")
      && (forall j, k :: 0 <= j < k < |calls| ==> calls[j].id != calls[k].id)
      && i + |calls| < |h|
      && (forall k :: i < k <= i + |calls| ==>
            h[k].role == "user" && h[k].toolCalls == [] && NamesACall(calls, h[k].toolCallId))
      && (forall j, k :: i < j < k <= i + |calls| ==> h[j].toolCallId != h[k].toolCallId)
  }

  predicate Owns(h: seq<Message>, o: int, i: int) {
    0 <= o < i < |h| && i <= o + |h[o].toolCalls|
  }

  // A result stands behind a message that calls for it.
  ghost predicate Owned(h: seq<Message>, i: nat)
    requires i < |h|
  {
    h[i].toolCallId != "" ==> exists o :: Owns(h, o, i)
  }

  ghost predicate InPlace(h: seq<Message>, i: nat)
    requires i < |h|
  {
    Answered(h, i) && Owned(h, i)
  }

  lemma NamesIsCalls(calls: seq<ToolCall>, id: string)
    ensures NamesACall(calls, id) <==> Calls(calls, id)
  {
  }

  lemma UnitInPlace(h: seq<Message>)
    requires h != []
    ensures StartsWithUnit(h) <==> h[0].toolCallId == "" && Answered(h, 0)
  {
    hide Calls, NamesACall;
    var calls := h[0].toolCalls;
    if calls != [] && |calls| < |h| {
      var rs := h[1..UnitSize(h[0])];
      assert |rs| == |calls| && forall k :: 1 <= k <= |calls| ==> h[k] == rs[k - 1];
      forall k | 0 <= k < |rs|
        ensures NamesACall(calls, rs[k].toolCallId) <==> Calls(calls, rs[k].toolCallId)
      {
        NamesIsCalls(calls, rs[k].toolCallId);
      }
      assert forall k :: 0 <= k < |rs| ==> rs[k] == h[k + 1];
    }
  }

  lemma AnsweredLater(h: seq<Message>, n: nat, i: nat)
    requires n + i < |h|
    ensures Answered(h[n..], i) <==> Answered(h, n + i)
  {
    hide NamesACall;
    var t := h[n..];
    assert forall k :: 0 <= k < |t| ==> t[k] == h[n + k];
    assert forall k :: n <= k < |h| ==> h[k] == t[k - n];
  }

  // Nobody but the first message of a unit owns anything in it, and nothing behind it.
  lemma OwnedLater(h: seq<Message>, n: nat, i: nat)
    requires n + i < |h|
    requires forall o, k :: Owns(h, o, k) && o < n ==> k < n
    ensures Owned(h[n..], i) <==> Owned(h, n + i)
  {
    var t := h[n..];
    assert t[i] == h[n + i];
    if o :| Owns(t, o, i) {
      assert t[o] == h[n + o];
      assert Owns(h, n + o, n + i);
    }
    var k := n + i;
    if o :| Owns(h, o, k) {
      assert t[o - n] == h[o];
      assert Owns(t, o - n, i);
    }
  }

  lemma UnitOwnsItself(h: seq<Message>)
    requires StartsWithUnit(h)
    ensures UnitSize(h[0]) <= |h|
    ensures forall o, k :: Owns(h, o, k) && o < UnitSize(h[0]) ==> k < UnitSize(h[0])
    ensures forall k :: 0 < k < UnitSize(h[0]) ==> h[k].toolCalls == [] && Owns(h, 0, k)
  {
    UnitInPlace(h);
  }

  lemma FirstInPlace(h: seq<Message>)
    requires h != []
    ensures Owned(h, 0) <==> h[0].toolCallId == ""
  {
  }

  // A history is legal exactly when every message is in place.
  lemma {:induction false} LegalExactly(h: seq<Message>)
    ensures Legal(h) <==> forall i :: 0 <= i < |h| ==> InPlace(h, i)
    decreases |h|
  {
    hide StartsWithUnit, Answered, Owned, Legal, Owns;
    if h == [] {
      LegalNothing(h);
    } else {
      LegalSteps(h);
      UnitInPlace(h);
      FirstInPlace(h);
      if StartsWithUnit(h) {
        UnitOwnsItself(h);
        var n := UnitSize(h[0]);
        var t := h[n..];
        LegalExactly(t);
        forall i | 0 <= i < |t|
          ensures InPlace(t, i) <==> InPlace(h, n + i)
        {
          AnsweredLater(h, n, i);
          OwnedLater(h, n, i);
        }
        forall k | 0 < k < n
          ensures InPlace(h, k)
        {
          ResultInPlace(h, k);
        }
        assert forall i :: n <= i < |h| ==> (InPlace(h, i) <==> InPlace(t, i - n));
      } else {
        assert !InPlace(h, 0);
      }
    }
  }

  lemma ResultInPlace(h: seq<Message>, k: nat)
    requires k < |h| && h[k].toolCalls == [] && Owns(h, 0, k)
    ensures InPlace(h, k)
  {
  }
}
