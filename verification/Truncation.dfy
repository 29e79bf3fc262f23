/** Shortening tool output that is too long for the context
    (internal/context/builder.go, `truncate`). */
module Truncation {
  import opened Schema
  import opened Estimator

  const MARKER := "\n[tool output truncated for context; full output in session history]\n"

  // The message with only `n` of its characters kept, split between the two ends.
  function Marked(m: Message, n: nat): Message
    requires n <= |m.content|
  {
    m.(content := m.content[..(n + 1) / 2] + MARKER + m.content[|m.content| - n / 2..])
  }

  predicate Fits(m: Message, n: nat, limit: int)
    requires n <= |m.content|
  {
    MessageTokens(Marked(m, n)) <= limit
  }

  predicate TooLong(m: Message, limit: int) {
    m.toolCallId != "" && MessageTokens(m) > limit
  }

  // The largest number of characters up to `n` that fits, or none.
  function Kept(m: Message, n: nat, limit: int): (k: nat)
    requires n <= |m.content|
    ensures k <= n
  {
    if n == 0 || Fits(m, n, limit) then n else Kept(m, n - 1, limit)
  }

  function Truncated(m: Message, limit: int): Message {
    if TooLong(m, limit) then Marked(m, Kept(m, |m.content|, limit)) else m
  }

  method Truncate(m: Message, limit: int) returns (best: Message, changed: bool)
    ensures changed == TooLong(m, limit)
    ensures changed <==> m.toolCallId != "" && MessageTokens(m) > limit
    ensures ShownAs(m, best, limit)
    ensures best == Truncated(m, limit)
  {
    hide Fits, Marked, MessageTokens, ShownAs;
    TruncatedIsShown(m, limit);
    var tokens := EstimateMessage(m);
    if m.toolCallId == "" || tokens <= limit {
      return m, false;
    }
    var lo, hi := 0, |m.content|;
    MarkedNothing(m);
    best := m.(content := MARKER);
    while lo <= hi
      invariant 0 <= lo <= |m.content| + 1 && -1 <= hi <= |m.content| && lo <= hi + 1
      invariant best == Marked(m, if lo == 0 then 0 else lo - 1)
      invariant lo > 0 ==> Fits(m, lo - 1, limit)
      invariant forall k :: hi < k <= |m.content| ==> !Fits(m, k, limit)
      decreases hi - lo
    {
      var n := (lo + hi) / 2;
      var head, tail := (n + 1) / 2, n / 2;
      var candidate := m.(content := m.content[..head] + MARKER + m.content[|m.content| - tail..]);
      MarkedIs(m, n, candidate, limit);
      var cost := EstimateMessage(candidate);
      if cost <= limit {
        best := candidate;
        lo := n + 1;
      } else {
        forall k | n <= k <= hi
          ensures !Fits(m, k, limit)
        {
          if Fits(m, k, limit) {
            FewerCharactersFit(m, n, k, limit);
          }
        }
        hi := n - 1;
      }
    }
    KeptIs(m, |m.content|, if lo == 0 then 0 else lo - 1, limit);
    return best, true;
  }

  lemma MarkedNothing(m: Message)
    ensures Marked(m, 0) == m.(content := MARKER)
  {
  }

  lemma MarkedIs(m: Message, n: nat, candidate: Message, limit: int)
    requires n <= |m.content|
    requires candidate == m.(content := m.content[..(n + 1) / 2] + MARKER + m.content[|m.content| - n / 2..])
    ensures candidate == Marked(m, n)
    ensures Fits(m, n, limit) <==> MessageTokens(candidate) <= limit
  {
    hide MessageTokens, MARKER;
  }

  // The estimate grows with the characters kept.
  lemma MarkedCost(m: Message, n: nat)
    requires n < |m.content|
    ensures MessageTokens(Marked(m, n)) <= MessageTokens(Marked(m, n + 1))
  {
    hide Quarters, MessageTokens;
    var c, h, t := m.content, (n + 1) / 2, n / 2;
    QuartersOfMarked(m, n);
    QuartersOfMarked(m, n + 1);
    if n % 2 == 0 {
      HeadGrows(c, h);
    } else {
      TailGrows(c, t);
    }
    CostlierContent(m, Marked(m, n).content, Marked(m, n + 1).content);
  }

  lemma HeadGrows(c: string, h: nat)
    requires h < |c|
    ensures Quarters(c[..h]) <= Quarters(c[..h + 1])
  {
    hide Quarters;
    assert c[..h + 1] == c[..h] + [c[h]];
    QuartersConcat(c[..h], [c[h]]);
  }

  lemma TailGrows(c: string, t: nat)
    requires t < |c|
    ensures Quarters(c[|c| - t..]) <= Quarters(c[|c| - t - 1..])
  {
    hide Quarters;
    assert c[|c| - t - 1..] == [c[|c| - t - 1]] + c[|c| - t..];
    QuartersConcat([c[|c| - t - 1]], c[|c| - t..]);
  }

  lemma CostlierContent(m: Message, a: string, b: string)
    requires Quarters(a) <= Quarters(b)
    ensures MessageTokens(m.(content := a)) <= MessageTokens(m.(content := b))
  {
    hide Quarters, CallsTokens;
  }

  lemma QuartersOfMarked(m: Message, n: nat)
    requires n <= |m.content|
    ensures Quarters(Marked(m, n).content)
            == Quarters(m.content[..(n + 1) / 2]) + Quarters(MARKER) + Quarters(m.content[|m.content| - n / 2..])
  {
    hide Quarters;
    var head, tail := m.content[..(n + 1) / 2], m.content[|m.content| - n / 2..];
    QuartersConcat(head + MARKER, tail);
    QuartersConcat(head, MARKER);
  }

  lemma {:induction false} FewerCharactersFit(m: Message, n: nat, k: nat, limit: int)
    requires n <= k <= |m.content|
    requires Fits(m, k, limit)
    ensures Fits(m, n, limit)
    decreases k - n
  {
    hide MessageTokens, Marked;
    if n < k {
      MarkedCost(m, k - 1);
      FewerCharactersFit(m, n, k - 1, limit);
    }
  }

  lemma {:induction false} KeptIs(m: Message, n: nat, k: nat, limit: int)
    requires k <= n <= |m.content|
    requires k == 0 || Fits(m, k, limit)
    requires forall j :: k < j <= n ==> !Fits(m, j, limit)
    ensures Kept(m, n, limit) == k
    decreases n
  {
    hide Fits;
    if k < n {
      KeptIs(m, n - 1, k, limit);
    }
  }

  lemma {:induction false} KeptIsLargest(m: Message, n: nat, limit: int)
    requires n <= |m.content|
    ensures Kept(m, n, limit) == 0 || Fits(m, Kept(m, n, limit), limit)
    ensures forall j :: Kept(m, n, limit) < j <= n ==> !Fits(m, j, limit)
  {
    hide Fits;
    if n > 0 {
      KeptIsLargest(m, n - 1, limit);
    }
  }

  // The whole content with a marker is no cheaper than the content, so a
  // message that is too long loses at least one character.
  lemma WholeNeverFits(m: Message, limit: int)
    requires m.toolCallId != "" && MessageTokens(m) > limit
    ensures !Fits(m, |m.content|, limit)
  {
    hide Quarters, MessageTokens;
    var c := m.content;
    QuartersOfMarked(m, |c|);
    assert c == c[..(|c| + 1) / 2] + c[|c| - |c| / 2..];
    QuartersConcat(c[..(|c| + 1) / 2], c[|c| - |c| / 2..]);
    CostlierContent(m, c, Marked(m, |c|).content);
    assert m.(content := c) == m;
  }

  // What truncation promises of a message that is too long.
  lemma TruncatedIsBest(m: Message, limit: int)
    requires m.toolCallId != "" && MessageTokens(m) > limit
    ensures var n := Kept(m, |m.content|, limit);
            && Truncated(m, limit) == Marked(m, n)
            // some character is dropped
            && (m.content != "" ==> n < |m.content|)
            // it fits whenever the bare marker does, with as much kept as possible
            && (MessageTokens(m.(content := MARKER)) <= limit ==> MessageTokens(Truncated(m, limit)) <= limit)
            && (forall k :: n < k <= |m.content| ==> MessageTokens(Marked(m, k)) > limit)
  {
    hide MessageTokens, Marked, Kept, Fits;
    WholeNeverFits(m, limit);
    KeptIsLargest(m, |m.content|, limit);
    MarkedNothing(m);
    LargestFits(m, Kept(m, |m.content|, limit), limit);
  }

  lemma LargestFits(m: Message, n: nat, limit: int)
    requires n <= |m.content|
    requires n == 0 || Fits(m, n, limit)
    requires forall k :: n < k <= |m.content| ==> !Fits(m, k, limit)
    ensures MessageTokens(Marked(m, 0)) <= limit ==> MessageTokens(Marked(m, n)) <= limit
    ensures forall k :: n < k <= |m.content| ==> MessageTokens(Marked(m, k)) > limit
  {
    hide MessageTokens, Marked;
    forall k | n < k <= |m.content|
      ensures MessageTokens(Marked(m, k)) > limit
    {
      assert !Fits(m, k, limit);
    }
  }

  // ---------- how a message is shown ----------

  // A beginning and an end of the content, of one length or the beginning one
  // longer, with a marker for what is left out between them.
  function Excerpt(m: Message, head: nat, tail: nat): Message
    requires head + tail <= |m.content|
  {
    m.(content := m.content[..head] + MARKER + m.content[|m.content| - tail..])
  }

  predicate Halves(head: nat, tail: nat) {
    head == tail || head == tail + 1
  }

  predicate IsExcerpt(m: Message, shown: Message, head: nat, tail: nat, limit: int) {
    && head + tail <= |m.content| && Halves(head, tail)
    && shown == Excerpt(m, head, tail)
    && (m.content != "" ==> head + tail < |m.content|)
    && (MessageTokens(shown) <= limit || (head == tail == 0))
  }

  // No longer excerpt is within the limit.
  ghost predicate Longest(m: Message, kept: nat, limit: int) {
    forall head: nat, tail: nat :: kept < head + tail <= |m.content| && Halves(head, tail) ==>
      MessageTokens(Excerpt(m, head, tail)) > limit
  }

  // A tool result above the limit is shown as its longest excerpt that fits,
  // or as the bare marker; every other message is shown as it is.
  ghost predicate ShownAs(m: Message, shown: Message, limit: int) {
    if m.toolCallId == "" || MessageTokens(m) <= limit then shown == m
    else exists head: nat, tail: nat :: IsExcerpt(m, shown, head, tail, limit) && Longest(m, head + tail, limit)
  }

  lemma MarkedIsExcerpt(m: Message, n: nat)
    requires n <= |m.content|
    ensures Halves((n + 1) / 2, n / 2) && Marked(m, n) == Excerpt(m, (n + 1) / 2, n / 2)
  {
    hide MARKER;
  }

  lemma HalvesAre(head: nat, tail: nat)
    requires Halves(head, tail)
    ensures head == (head + tail + 1) / 2 && tail == (head + tail) / 2
  {
  }

  lemma TruncatedIsShown(m: Message, limit: int)
    ensures ShownAs(m, Truncated(m, limit), limit)
  {
    hide MessageTokens, Marked, Excerpt, Kept;
    if TooLong(m, limit) {
      TruncatedIsBest(m, limit);
      KeptIsLargest(m, |m.content|, limit);
      var n := Kept(m, |m.content|, limit);
      MarkedIsExcerpt(m, n);
      assert IsExcerpt(m, Truncated(m, limit), (n + 1) / 2, n / 2, limit);
      forall head: nat, tail: nat | n < head + tail <= |m.content| && Halves(head, tail)
        ensures MessageTokens(Excerpt(m, head, tail)) > limit
      {
        HalvesAre(head, tail);
        MarkedIsExcerpt(m, head + tail);
      }
    }
  }

  // A shown message is within the limit, unless its marker alone is not.
  lemma ShownIsWithin(m: Message, shown: Message, limit: int)
    requires ShownAs(m, shown, limit) && shown.toolCallId != ""
    ensures MessageTokens(shown) <= limit || MessageTokens(shown.(content := MARKER)) > limit
  {
    hide MessageTokens;
    NoExcerpt(m);
  }

  lemma NoExcerpt(m: Message)
    ensures Excerpt(m, 0, 0) == m.(content := MARKER)
    ensures MARKER == "\n[tool output truncated for context; full output in session history]\n"
  {
  }
}
