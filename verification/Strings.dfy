/** The string operations of Go's standard library that the modelled code uses. */
module Strings {

  // unicode.IsSpace
  predicate IsSpace(c: char) {
    '\t' <= c <= '\r' || c == ' ' || c == '\U{0085}' || c == '\U{00a0}' || c == '\U{1680}'
    || '\U{2000}' <= c <= '\U{200a}' || c == '\U{2028}' || c == '\U{2029}' || c == '\U{202f}' || c == '\U{205f}'
    || c == '\U{3000}'
  }

  function TrimLeft(s: string): string {
    if s != "" && IsSpace(s[0]) then TrimLeft(s[1..]) else s
  }

  function TrimRight(s: string): string {
    if s != "" && IsSpace(s[|s| - 1]) then TrimRight(s[..|s| - 1]) else s
  }

  function TrimSpace(s: string): string {
    TrimRight(TrimLeft(s))
  }

  predicate Blank(s: string) {
    forall i :: 0 <= i < |s| ==> IsSpace(s[i])
  }

  lemma {:induction false} TrimLeftIs(s: string) returns (a: string)
    ensures s == a + TrimLeft(s) && Blank(a)
    ensures TrimLeft(s) != "" ==> !IsSpace(TrimLeft(s)[0])
    decreases |s|
  {
    hide IsSpace;
    a := "";
    if s != "" && IsSpace(s[0]) {
      var rest := TrimLeftIs(s[1..]);
      a := [s[0]] + rest;
    }
  }

  lemma {:induction false} TrimRightIs(s: string) returns (b: string)
    ensures s == TrimRight(s) + b && Blank(b)
    ensures TrimRight(s) != "" ==> !IsSpace(TrimRight(s)[|TrimRight(s)| - 1])
    decreases |s|
  {
    hide IsSpace;
    b := "";
    if s != "" && IsSpace(s[|s| - 1]) {
      var rest := TrimRightIs(s[..|s| - 1]);
      b := rest + [s[|s| - 1]];
    }
  }

  // Only blanks are cut off, and no blank is left at either end.
  lemma TrimSpaceIs(s: string) returns (a: string, b: string)
    ensures var t := TrimSpace(s);
            && s == a + t + b && Blank(a) && Blank(b)
            && (t != "" ==> !IsSpace(t[0]) && !IsSpace(t[|t| - 1]))
  {
    hide IsSpace, TrimLeft, TrimRight;
    a := TrimLeftIs(s);
    b := TrimRightIs(TrimLeft(s));
  }

  predicate HasPrefix(s: string, p: string) {
    p <= s
  }

  function TrimPrefix(s: string, p: string): string {
    if HasPrefix(s, p) then s[|p|..] else s
  }

  // The index of the first newline, or the length.
  function FirstNewline(s: string): (k: nat)
    ensures k <= |s|
    ensures '\n' !in s[..k]
    ensures k < |s| ==> s[k] == '\n'
  {
    if s == "" || s[0] == '\n' then 0
    else
      var k := 1 + FirstNewline(s[1..]);
      assert s[..k] == [s[0]] + s[1..][..k - 1];
      k
  }

  // strings.Split(s, "\n")
  function Split(s: string): (lines: seq<string>)
    ensures |lines| > 0
    decreases |s|
  {
    var k := FirstNewline(s);
    if k == |s| then [s] else [s[..k]] + Split(s[k + 1..])
  }

  // strings.Join(lines, "\n")
  function Join(lines: seq<string>): string {
    if lines == [] then ""
    else if |lines| == 1 then lines[0]
    else lines[0] + "\n" + Join(lines[1..])
  }

  predicate NewlineFree(lines: seq<string>) {
    forall i :: 0 <= i < |lines| ==> '\n' !in lines[i]
  }

  lemma FirstNewlineIs(s: string, k: nat)
    requires k <= |s|
    requires '\n' !in s[..k]
    requires k < |s| ==> s[k] == '\n'
    ensures FirstNewline(s) == k
  {
    var j := FirstNewline(s);
    assert forall i :: 0 <= i < k ==> s[..k][i] == s[i];
    assert forall i :: 0 <= i < j ==> s[..j][i] == s[i];
  }

  lemma {:induction false} SplitJoin(lines: seq<string>)
    requires lines != [] && NewlineFree(lines)
    ensures Split(Join(lines)) == lines
    decreases |lines|
  {
    if |lines| == 1 {
      assert lines[0][..|lines[0]|] == lines[0];
      FirstNewlineIs(lines[0], |lines[0]|);
    } else {
      var s, n := Join(lines), |lines[0]|;
      assert s[..n] == lines[0];
      FirstNewlineIs(s, n);
      assert s[n + 1..] == Join(lines[1..]);
      SplitJoin(lines[1..]);
    }
  }

  // Splitting a text that was put together around newlines.
  lemma {:induction false} JoinConcat(a: seq<string>, b: seq<string>)
    requires a != [] && b != []
    ensures Join(a + b) == Join(a) + "\n" + Join(b)
    decreases |a|
  {
    assert (a + b)[0] == a[0];
    if |a| == 1 {
      assert (a + b)[1..] == b;
    } else {
      assert (a + b)[1..] == a[1..] + b;
      JoinConcat(a[1..], b);
    }
  }

  lemma SplitMore(s: string)
    requires FirstNewline(s) < |s|
    ensures Split(s) == [s[..FirstNewline(s)]] + Split(s[FirstNewline(s) + 1..])
  {
    hide FirstNewline, Join;
  }

  lemma SplitStep(s: string)
    ensures var k := FirstNewline(s);
            Split(s) == if k == |s| then [s] else [s[..k]] + Split(s[k + 1..])
  {
    hide FirstNewline, Join;
    var k := FirstNewline(s);
    if k < |s| {
      hide Split;
      SplitMore(s);
    }
  }

  lemma JoinOne(s: string)
    ensures Join([s]) == s
  {
  }

  lemma {:induction false} JoinSplit(s: string)
    ensures Join(Split(s)) == s
    ensures NewlineFree(Split(s))
    decreases |s|
  {
    hide Split, Join, FirstNewline;
    SplitStep(s);
    var k := FirstNewline(s);
    if k == |s| {
      JoinOne(s);
      assert s[..k] == s;
    } else {
      var rest := s[k + 1..];
      JoinSplit(rest);
      JoinConcat([s[..k]], Split(rest));
      JoinOne(s[..k]);
      assert s == s[..k] + "\n" + rest;
    }
  }

  lemma SplitConcat(a: string, b: string)
    ensures Split(a + "\n" + b) == Split(a) + Split(b)
  {
    hide Split, Join;
    JoinSplit(a);
    JoinSplit(b);
    JoinConcat(Split(a), Split(b));
    SplitJoin(Split(a) + Split(b));
  }
}
