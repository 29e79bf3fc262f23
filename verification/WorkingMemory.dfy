/** The recent part of a session's history (internal/context/session.go,
    `GetWorkingMemory` and `findConversationStart`). */
module WorkingMemory {
  import opened Schema
  import opened Turns

  // The latest ordinary user message up to the candidate, or the beginning.
  method FindConversationStart(history: seq<Message>, candidate: int) returns (start: nat)
    requires candidate < |history|
    ensures start <= |history| && (candidate >= 0 ==> start <= candidate)
    ensures start > 0 ==> start < |history| && OrdinaryUser(history[start])
    ensures forall i :: start < i <= candidate ==> !OrdinaryUser(history[i])
    ensures candidate <= 0 ==> start == 0
  {
    if candidate <= 0 {
      return 0;
    }
    var i := candidate;
    while i >= 0
      invariant -1 <= i <= candidate
      invariant forall j :: i < j <= candidate ==> !OrdinaryUser(history[j])
    {
      if history[i].role == ROLE_USER && history[i].toolCallId == "" {
        return i;
      }
      i := i - 1;
    }
    return 0;
  }

  // A suffix of the history no shorter than asked for, that starts a turn or is
  // the whole history, with no turn start in what it adds. A legal history
  // gives a legal one, of whole turns: no call is cut from its results.
  method GetWorkingMemory(history: seq<Message>, limit: int) returns (memory: seq<Message>)
    ensures |memory| <= |history| && memory == history[|history| - |memory|..]
    ensures limit <= 0 || |history| <= limit ==> memory == history
    ensures 0 < limit < |history| ==> |memory| >= limit
    ensures |memory| < |history| ==> memory != [] && OrdinaryUser(memory[0])
    ensures 0 < limit < |history| ==>
              forall i :: |history| - |memory| < i <= |history| - limit ==> !OrdinaryUser(history[i])
    ensures Legal(history) ==> Legal(memory)
  {
    hide Legal;
    var total, start := |history|, 0;
    if total > limit && limit > 0 {
      start := total - limit;
      start := FindConversationStart(history, start);
    }
    memory := history[start..];
    if start == 0 {
      assert memory == history;
    } else if Legal(history) {
      LegalFrom(history, start);
    }
  }

  // Any turn that starts in the working memory is there as a whole: grouping
  // the memory gives a suffix of the turns of the history.
  lemma {:induction false} MemoryIsWholeTurns(history: seq<Message>, start: nat)
    requires start < |history| && OrdinaryUser(history[start])
    ensures exists k :: 0 <= k < |TurnsOf(history)| && TurnStart(history, k) == start
                        && TurnsOf(history[start..]) == TurnsOf(history)[k..]
    decreases |history|
  {
    hide Legal, TurnsOf, TurnStart;
    SomeTurn(history);
    if start == 0 {
      StartOfTurns(history);
      assert history[0..] == history && TurnsOf(history)[0..] == TurnsOf(history);
    } else {
      var j := NextTurn(history, 1);
      TurnsStep(history, j);
      var rest := history[j..];
      assert rest[start - j..] == history[start..];
      MemoryIsWholeTurns(rest, start - j);
      var k :| 0 <= k < |TurnsOf(rest)| && TurnStart(rest, k) == start - j
               && TurnsOf(rest[start - j..]) == TurnsOf(rest)[k..];
      StartStep(history, k + 1);
      assert TurnsOf(history)[k + 1..] == TurnsOf(rest)[k..];
    }
  }
}
