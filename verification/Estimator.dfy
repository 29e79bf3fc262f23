/** Token estimates (internal/context/estimator.go): a weight per character,
    summed and rounded up, plus fixed envelopes. */
module Estimator {
  import opened Schema

  predicate AsciiWord(c: char) {
    'a' <= c <= 'z' || 'A' <= c <= 'Z' || '0' <= c <= '9' || c == ' ' || '\t' <= c <= '\r'
  }

  // Quarter tokens of a character. Every script the source names lies outside
  // ASCII, where all characters weigh the same.
  function Weight(c: char): nat {
    if c as int >= 128 then 8 else if AsciiWord(c) then 2 else 4
  }

  function Quarters(text: string): nat {
    if text == "" then 0 else Weight(text[0]) + Quarters(text[1..])
  }

  function TextTokens(text: string): nat {
    (Quarters(text) + 3) / 4
  }

  function CallTokens(c: ToolCall): nat {
    12 + TextTokens(c.id) + TextTokens(c.name) + TextTokens(c.arguments)
  }

  function CallsTokens(cs: seq<ToolCall>): nat {
    if cs == [] then 0 else CallTokens(cs[0]) + CallsTokens(cs[1..])
  }

  function MessageTokens(m: Message): (n: nat)
    ensures n >= 8
  {
    8 + TextTokens(m.role) + TextTokens(m.content) + TextTokens(m.toolCallId) + CallsTokens(m.toolCalls)
  }

  function MessagesTokens(ms: seq<Message>): nat {
    if ms == [] then 0 else MessageTokens(ms[0]) + MessagesTokens(ms[1..])
  }

  method EstimateText(text: string) returns (n: nat)
    ensures n == TextTokens(text)
  {
    var quarters: nat := 0;
    for i := 0 to |text|
      invariant quarters + Quarters(text[i..]) == Quarters(text)
    {
      assert text[i..][0] == text[i] && text[i..][1..] == text[i + 1..];
      if text[i] as int < 128 && AsciiWord(text[i]) {
        quarters := quarters + 2;
      } else if text[i] as int < 128 {
        quarters := quarters + 4;
      } else {
        quarters := quarters + 8;
      }
    }
    n := (quarters + 3) / 4;
  }

  method EstimateMessage(m: Message) returns (n: nat)
    ensures n == MessageTokens(m)
  {
    hide TextTokens;
    var role := EstimateText(m.role);
    var content := EstimateText(m.content);
    var id := EstimateText(m.toolCallId);
    n := 8 + role + content + id;
    for i := 0 to |m.toolCalls|
      invariant n + CallsTokens(m.toolCalls[i..]) == MessageTokens(m)
    {
      var c := m.toolCalls[i];
      assert m.toolCalls[i..][0] == c && m.toolCalls[i..][1..] == m.toolCalls[i + 1..];
      var callId := EstimateText(c.id);
      var name := EstimateText(c.name);
      var arguments := EstimateText(c.arguments);
      n := n + 12 + callId + name + arguments;
    }
  }

  method EstimateMessages(ms: seq<Message>) returns (n: nat)
    ensures n == MessagesTokens(ms)
  {
    hide MessageTokens;
    n := 0;
    for i := 0 to |ms|
      invariant n + MessagesTokens(ms[i..]) == MessagesTokens(ms)
    {
      assert ms[i..][0] == ms[i] && ms[i..][1..] == ms[i + 1..];
      var k := EstimateMessage(ms[i]);
      n := n + k;
    }
  }

  // A text never costs less than half a token a character, nor more than two.
  lemma {:induction false} TextBounds(text: string)
    ensures 2 * |text| <= Quarters(text) <= 8 * |text|
    ensures |text| <= 2 * TextTokens(text) && TextTokens(text) <= 2 * |text|
  {
    if text != "" {
      TextBounds(text[1..]);
    }
  }

  lemma {:induction false} QuartersConcat(a: string, b: string)
    ensures Quarters(a + b) == Quarters(a) + Quarters(b)
  {
    if a == "" {
      assert a + b == b;
    } else {
      assert (a + b)[1..] == a[1..] + b;
      QuartersConcat(a[1..], b);
    }
  }

  const LOWER := "abcdefghijklmnopqrstuvwxyz"
  const UPPER := "ABCDEFGHIJKLMNOPQRSTUVWXYZ"
  const DIGITS := "0123456789"
  const BLANKS := " \t\n\U{000B}\U{000C}\r"

  // Half a token for an ASCII letter, digit or blank, one for the rest of
  // ASCII, and two for every other character; the sum is rounded up.
  lemma CharacterCosts(c: char, text: string)
    ensures Quarters([c]) == if c in LOWER || c in UPPER || c in DIGITS || c in BLANKS then 2
                             else if c as int < 128 then 4
                             else 8
    ensures 4 * (TextTokens(text) - 1) < Quarters(text) <= 4 * TextTokens(text)
  {
    hide LOWER, UPPER, DIGITS;
    assert [c][1..] == "";
    LowerIs(c);
    UpperIs(c);
    DigitIs(c);
  }

  lemma LowerIs(c: char)
    ensures c in LOWER <==> 'a' <= c <= 'z'
  {
    if 'a' <= c <= 'z' {
      assert LOWER[c as int - 'a' as int] == c;
    }
  }

  lemma UpperIs(c: char)
    ensures c in UPPER <==> 'A' <= c <= 'Z'
  {
    if 'A' <= c <= 'Z' {
      assert UPPER[c as int - 'A' as int] == c;
    }
  }

  lemma DigitIs(c: char)
    ensures c in DIGITS <==> '0' <= c <= '9'
  {
    if '0' <= c <= '9' {
      assert DIGITS[c as int - '0' as int] == c;
    }
  }

  lemma {:induction false} CallsTokensSnoc(cs: seq<ToolCall>, c: ToolCall)
    ensures CallsTokens(cs + [c]) == CallsTokens(cs) + CallTokens(c)
    decreases |cs|
  {
    hide CallTokens;
    if cs == [] {
      assert [] + [c] == [c] && [c][1..] == [];
    } else {
      assert (cs + [c])[1..] == cs[1..] + [c];
      CallsTokensSnoc(cs[1..], c);
    }
  }

  // A message costs eight tokens beside its texts, and each call twelve.
  lemma EnvelopeCosts(m: Message, role: string, content: string, id: string, c: ToolCall)
    ensures MessageTokens(m.(role := role, content := content, toolCallId := id, toolCalls := []))
            == 8 + TextTokens(role) + TextTokens(content) + TextTokens(id)
    ensures MessageTokens(m.(toolCalls := m.toolCalls + [c]))
            == MessageTokens(m) + 12 + TextTokens(c.id) + TextTokens(c.name) + TextTokens(c.arguments)
  {
    hide TextTokens;
    CallsTokensSnoc(m.toolCalls, c);
  }

  // Joining texts never costs less than a part, nor more than the parts.
  lemma TextTokensConcat(a: string, b: string)
    ensures TextTokens(a) <= TextTokens(a + b) && TextTokens(b) <= TextTokens(a + b)
    ensures TextTokens(a + b) <= TextTokens(a) + TextTokens(b)
  {
    QuartersConcat(a, b);
  }

  lemma {:induction false} MessagesTokensConcat(a: seq<Message>, b: seq<Message>)
    ensures MessagesTokens(a + b) == MessagesTokens(a) + MessagesTokens(b)
  {
    hide MessageTokens;
    if a == [] {
      assert a + b == b;
    } else {
      assert (a + b)[1..] == a[1..] + b;
      MessagesTokensConcat(a[1..], b);
    }
  }
}
