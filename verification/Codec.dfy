/** A small self-delimiting text form for structured values. It stands for the
    JSON encoder of the session store and has the three facts the store relies
    on: a printed value has no newline, parsing undoes printing, and no strict
    prefix of a printed value parses. */
module Codec {
  import opened Basics

  const NEWLINE: byte := 10
  const QUOTE: byte := 34
  const PLUS: byte := 43
  const COMMA: byte := 44
  const MINUS: byte := 45
  const ZERO: byte := 48
  const SEMICOLON: byte := 59
  const BACKSLASH: byte := 92
  const LETTER_N: byte := 110
  const OPEN: byte := 123
  const CLOSE: byte := 125

  datatype Value =
    | Nil
    | Num(n: int)
    | Text(s: string)
    | Pair(head: Value, tail: Value)

  // ---------- printing ----------

  function Digit(d: nat): byte
    requires d < 10
  {
    ZERO + d as byte
  }

  function PrintNat(n: nat): bytes {
    if n < 10 then [Digit(n)] else PrintNat(n / 10) + [Digit(n % 10)]
  }

  predicate Plain(c: char) {
    32 <= c as int < 127 && c != '"' && c != '\\'
  }

  function PrintChar(c: char): bytes {
    if Plain(c) then [c as int as byte] else [BACKSLASH] + PrintNat(c as int) + [SEMICOLON]
  }

  // The closing quote ends the text.
  function PrintText(s: string): bytes {
    if s == "" then [QUOTE] else PrintChar(s[0]) + PrintText(s[1..])
  }

  function Print(v: Value): bytes {
    match v
    case Nil => [LETTER_N]
    case Num(n) => if n < 0 then [MINUS] + PrintNat(-n) + [SEMICOLON] else [PLUS] + PrintNat(n) + [SEMICOLON]
    case Text(s) => [QUOTE] + PrintText(s)
    case Pair(h, t) => [OPEN] + Print(h) + [COMMA] + Print(t) + [CLOSE]
  }

  // ---------- parsing ----------

  predicate IsDigit(b: byte) {
    ZERO <= b < ZERO + 10
  }

  // Decimal digits up to a semicolon, continuing from `acc`.
  function ParseDigits(acc: nat, b: bytes): (r: Option<(nat, bytes)>)
    ensures r.Some? ==> |r.value.1| < |b|
    decreases |b|
  {
    if b == [] then None
    else if b[0] == SEMICOLON then Some((acc, b[1..]))
    else if IsDigit(b[0]) then ParseDigits(10 * acc + (b[0] - ZERO) as nat, b[1..])
    else None
  }

  predicate IsScalar(n: nat) {
    n < 0xD800 || 0xE000 <= n < 0x11_0000
  }

  function ParseChar(b: bytes): (r: Option<(char, bytes)>)
    ensures r.Some? ==> |r.value.1| < |b|
  {
    if b == [] then None
    else if b[0] == BACKSLASH then
      var (n, rest) :- ParseDigits(0, b[1..]);
      if IsScalar(n) then Some((n as char, rest)) else None
    else if Plain(b[0] as int as char) then Some((b[0] as int as char, b[1..]))
    else None
  }

  function ParseText(b: bytes): (r: Option<(string, bytes)>)
    ensures r.Some? ==> |r.value.1| < |b|
    decreases |b|
  {
    if b == [] then None
    else if b[0] == QUOTE then Some(("", b[1..]))
    else
      var (c, more) :- ParseChar(b);
      var (s, rest) :- ParseText(more);
      Some(([c] + s, rest))
  }

  // The literal byte `t`, then the rest.
  function Expect(t: byte, b: bytes): (r: Option<bytes>)
    ensures r.Some? ==> |r.value| < |b|
  {
    if b != [] && b[0] == t then Some(b[1..]) else None
  }

  function Parse(b: bytes): (r: Option<(Value, bytes)>)
    ensures r.Some? ==> |r.value.1| < |b|
    decreases |b|
  {
    if b == [] then None
    else if b[0] == LETTER_N then Some((Nil, b[1..]))
    else if b[0] == PLUS then
      var (n, rest) :- ParseDigits(0, b[1..]);
      Some((Num(n), rest))
    else if b[0] == MINUS then
      var (n, rest) :- ParseDigits(0, b[1..]);
      Some((Num(0 - n), rest))
    else if b[0] == QUOTE then
      var (s, rest) :- ParseText(b[1..]);
      Some((Text(s), rest))
    else if b[0] == OPEN then
      var (h, r1) :- Parse(b[1..]);
      var r2 :- Expect(COMMA, r1);
      var (t, r3) :- Parse(r2);
      var r4 :- Expect(CLOSE, r3);
      Some((Pair(h, t), r4))
    else None
  }

  // A whole input, nothing left over.
  function ParseAll(b: bytes): Option<Value> {
    var (v, rest) :- Parse(b);
    if rest == [] then Some(v) else None
  }

  // ---------- printed values have no newline ----------

  lemma {:induction false} PrintNatDigits(n: nat)
    ensures forall k :: 0 <= k < |PrintNat(n)| ==> IsDigit(PrintNat(n)[k])
  {
    if n >= 10 {
      PrintNatDigits(n / 10);
    }
  }

  lemma {:induction false} PrintTextNewlineFree(s: string)
    ensures NEWLINE !in PrintText(s)
  {
    if s != "" {
      PrintNatDigits(s[0] as int);
      PrintTextNewlineFree(s[1..]);
    }
  }

  lemma {:induction false} PrintNewlineFree(v: Value)
    ensures NEWLINE !in Print(v)
  {
    match v
    case Nil =>
    case Num(n) => PrintNatDigits(if n < 0 then -n else n);
    case Text(s) => PrintTextNewlineFree(s);
    case Pair(h, t) =>
      PrintNewlineFree(h);
      PrintNewlineFree(t);
  }

  // ---------- parsing undoes printing, whatever follows ----------

  lemma {:induction false} ParseDigitsPrintNat(n: nat, x: bytes)
    ensures ParseDigits(0, PrintNat(n) + x) == ParseDigits(n, x)
  {
    if n < 10 {
      assert (PrintNat(n) + x)[1..] == x;
    } else {
      var d := [Digit(n % 10)];
      assert PrintNat(n) + x == PrintNat(n / 10) + (d + x);
      ParseDigitsPrintNat(n / 10, d + x);
      assert (d + x)[1..] == x;
    }
  }

  lemma ParseCharPrint(c: char, x: bytes)
    ensures ParseChar(PrintChar(c) + x) == Some((c, x))
  {
    hide ParseDigits, PrintNat;
    var b := PrintChar(c) + x;
    if Plain(c) {
      assert b[1..] == x;
    } else {
      assert b[0] == BACKSLASH && b[1..] == PrintNat(c as int) + ([SEMICOLON] + x);
      ParseDigitsPrintNat(c as int, [SEMICOLON] + x);
      DigitsEnd(c as int, x);
    }
  }

  lemma DigitsEnd(n: nat, x: bytes)
    ensures ParseDigits(n, [SEMICOLON] + x) == Some((n, x))
  {
    assert ([SEMICOLON] + x)[1..] == x;
  }

  lemma {:induction false} ParseTextPrint(s: string, x: bytes)
    ensures ParseText(PrintText(s) + x) == Some((s, x))
  {
    var b := PrintText(s) + x;
    if s == "" {
      assert b[1..] == x;
    } else {
      assert b == PrintChar(s[0]) + (PrintText(s[1..]) + x);
      ParseCharPrint(s[0], PrintText(s[1..]) + x);
      ParseTextPrint(s[1..], x);
      assert [s[0]] + s[1..] == s;
    }
  }

  lemma ParseNumPrint(n: int, x: bytes)
    ensures Parse(Print(Num(n)) + x) == Some((Num(n), x))
  {
    var b := Print(Num(n)) + x;
    var m: nat := if n < 0 then -n else n;
    var tail := [SEMICOLON] + x;
    assert b[1..] == PrintNat(m) + tail;
    ParseDigitsPrintNat(m, tail);
    assert tail[1..] == x;
  }

  lemma PrintPair(h: Value, t: Value, x: bytes)
    ensures Print(Pair(h, t)) + x == [OPEN] + (Print(h) + ([COMMA] + (Print(t) + ([CLOSE] + x))))
  {
  }

  // The parser on a pair whose four pieces it finds in turn.
  lemma ParsePairSteps(b: bytes, h: Value, t: Value, z: bytes, y: bytes)
    requires b != [] && b[0] == OPEN
    requires Parse(b[1..]) == Some((h, [COMMA] + z))
    requires Parse(z) == Some((t, [CLOSE] + y))
    ensures Parse(b) == Some((Pair(h, t), y))
  {
    assert ([COMMA] + z)[1..] == z;
    assert ([CLOSE] + y)[1..] == y;
  }

  lemma ParsePairPrint(h: Value, t: Value, x: bytes)
    requires Parse(Print(h) + ([COMMA] + (Print(t) + ([CLOSE] + x)))) == Some((h, [COMMA] + (Print(t) + ([CLOSE] + x))))
    requires Parse(Print(t) + ([CLOSE] + x)) == Some((t, [CLOSE] + x))
    ensures Parse(Print(Pair(h, t)) + x) == Some((Pair(h, t), x))
  {
    hide *;
    var z := Print(t) + ([CLOSE] + x);
    PrintPair(h, t, x);
    var b := Print(Pair(h, t)) + x;
    assert b[1..] == Print(h) + ([COMMA] + z);
    ParsePairSteps(b, h, t, z, x);
  }

  lemma ParseNilPrint(x: bytes)
    ensures Parse(Print(Nil) + x) == Some((Nil, x))
  {
    assert (Print(Nil) + x)[1..] == x;
  }

  lemma ParseStringPrint(s: string, x: bytes)
    ensures Parse(Print(Text(s)) + x) == Some((Text(s), x))
  {
    hide PrintText, ParseText, ParseDigits;
    var b := Print(Text(s)) + x;
    assert b[1..] == PrintText(s) + x;
    ParseTextPrint(s, x);
  }

  lemma {:induction false} ParsePrint(v: Value, x: bytes)
    ensures Parse(Print(v) + x) == Some((v, x))
  {
    hide Parse, Print;
    match v
    case Nil => ParseNilPrint(x);
    case Num(n) => ParseNumPrint(n, x);
    case Text(s) => ParseStringPrint(s, x);
    case Pair(h, t) =>
      ParsePrint(h, [COMMA] + (Print(t) + ([CLOSE] + x)));
      ParsePrint(t, [CLOSE] + x);
      ParsePairPrint(h, t, x);
  }

  // ---------- more input never changes what was parsed ----------

  lemma {:induction false} ParseDigitsExtends(acc: nat, b: bytes, x: bytes)
    requires ParseDigits(acc, b).Some?
    ensures ParseDigits(acc, b + x) == Some((ParseDigits(acc, b).value.0, ParseDigits(acc, b).value.1 + x))
    decreases |b|
  {
    assert (b + x)[1..] == b[1..] + x;
    if b[0] != SEMICOLON {
      ParseDigitsExtends(10 * acc + (b[0] - ZERO) as nat, b[1..], x);
    }
  }

  lemma {:induction false} ParseTextExtends(b: bytes, x: bytes)
    requires ParseText(b).Some?
    ensures ParseText(b + x) == Some((ParseText(b).value.0, ParseText(b).value.1 + x))
    decreases |b|
  {
    assert (b + x)[1..] == b[1..] + x;
    if b[0] != QUOTE {
      if b[0] == BACKSLASH {
        ParseDigitsExtends(0, b[1..], x);
      }
      ParseTextExtends(ParseChar(b).value.1, x);
    }
  }

  lemma ExpectExtends(t: byte, b: bytes, x: bytes)
    requires Expect(t, b).Some?
    ensures Expect(t, b + x) == Some(Expect(t, b).value + x)
  {
    assert (b + x)[1..] == b[1..] + x;
  }

  lemma {:induction false} ParseExtends(b: bytes, x: bytes)
    requires Parse(b).Some?
    ensures Parse(b + x) == Some((Parse(b).value.0, Parse(b).value.1 + x))
    decreases |b|
  {
    assert (b + x)[1..] == b[1..] + x;
    if b[0] == PLUS || b[0] == MINUS {
      ParseDigitsExtends(0, b[1..], x);
    } else if b[0] == QUOTE {
      ParseTextExtends(b[1..], x);
    } else if b[0] == OPEN {
      ParseExtends(b[1..], x);
      var r1 := Parse(b[1..]).value.1;
      ExpectExtends(COMMA, r1, x);
      var r2 := Expect(COMMA, r1).value;
      ParseExtends(r2, x);
      ExpectExtends(CLOSE, Parse(r2).value.1, x);
    }
  }

  // ---------- the two facts on whole inputs ----------

  lemma ParseAllPrint(v: Value)
    ensures ParseAll(Print(v)) == Some(v)
  {
    hide Parse, Print;
    assert Print(v) + [] == Print(v);
    ParsePrint(v, []);
  }

  lemma StrictPrefixNeverParses(v: Value, k: nat)
    requires k < |Print(v)|
    ensures ParseAll(Print(v)[..k]) == None
  {
    hide Parse, Print;
    var p, x := Print(v)[..k], Print(v)[k..];
    assert p + x == Print(v);
    if ParseAll(p).Some? {
      ParseExtends(p, x);
      ParseAllPrint(v);
      assert false;
    }
  }
}
