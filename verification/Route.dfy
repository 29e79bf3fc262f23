/** Conversation keys and message keys (internal/channel/route.go, `DedupKey`
    of internal/gateway/dedup.go): labelled components escaped as by
    url.QueryEscape, which is percent-encoding with plus for the space. */
module RouteKeys {
  import opened Basics

  datatype Route = Route(channel: bytes, account: bytes, chat: bytes, thread: bytes)

  const SPACE: byte := 32

  // ---------- url.QueryEscape ----------

  predicate Unreserved(b: byte) {
    48 <= b <= 57 || 65 <= b <= 90 || 97 <= b <= 122 || b == 45 || b == 46 || b == 95 || b == 126
  }

  function HexDigit(d: nat): char
    requires d < 16
  {
    if d < 10 then '0' + d as char else 'A' + (d - 10) as char
  }

  function EscapeByte(b: byte): string {
    if b == SPACE then "+"
    else if Unreserved(b) then [b as int as char]
    else ['%', HexDigit(b as int / 16), HexDigit(b as int % 16)]
  }

  function Escape(v: bytes): string {
    if v == [] then "" else EscapeByte(v[0]) + Escape(v[1..])
  }

  // ---------- the keys ----------

  // A label followed by one escaped component.
  function Field(tag: string, v: bytes): string {
    tag + Escape(v)
  }

  function BuildSessionKey(r: Route): string {
    Field("channel:", r.channel) + (Field(":account:", r.account) + (Field(":chat:", r.chat) +
      (if r.thread != [] then Field(":thread:", r.thread) else "")))
  }

  function DedupKey(channel: bytes, account: bytes, id: bytes): string {
    Field("channel:", channel) + (Field(":account:", account) + Field(":message:", id))
  }

  // ---------- reading keys back ----------

  datatype Token = Token(value: bytes, rest: string)

  function HexValue(c: char): (d: Option<nat>)
    ensures d.Some? ==> d.value < 16 && HexDigit(d.value) == c
  {
    if '0' <= c <= '9' then Some(c as int - '0' as int)
    else if 'A' <= c <= 'F' then Some(c as int - 'A' as int + 10)
    else None
  }

  function HexByte(hi: char, lo: char): Option<byte> {
    var h :- HexValue(hi);
    var l :- HexValue(lo);
    Some((16 * h + l) as byte)
  }

  // The first escaped byte of s and how many characters it takes. A byte that
  // is written in another way than `EscapeByte` writes it is refused.
  function ReadByte(s: string): (r: Option<(byte, nat)>)
    requires s != ""
    ensures r.Some? ==> 0 < r.value.1 <= |s|
  {
    if s[0] == '+' then Some((SPACE, 1))
    else if s[0] == '%' then
      if |s| < 3 then None else
      var b :- HexByte(s[1], s[2]);
      if b == SPACE || Unreserved(b) then None else Some((b, 3))
    else if s[0] as int < 256 && Unreserved(s[0] as int as byte) then Some((s[0] as int as byte, 1))
    else None
  }

  // The component at the start of s, which ends at a colon or with s.
  function ReadToken(s: string): Option<Token>
    decreases |s|
  {
    if s == "" || s[0] == ':' then Some(Token([], s))
    else
      var b :- ReadByte(s);
      var t :- ReadToken(s[b.1..]);
      Some(Token([b.0] + t.value, t.rest))
  }

  function ReadField(tag: string, s: string): Option<Token> {
    if tag <= s then ReadToken(s[|tag|..]) else None
  }

  function ParseSessionKey(s: string): Option<Route> {
    var channel :- ReadField("channel:", s);
    var account :- ReadField(":account:", channel.rest);
    var chat :- ReadField(":chat:", account.rest);
    if chat.rest == "" then Some(Route(channel.value, account.value, chat.value, []))
    else
      var thread :- ReadField(":thread:", chat.rest);
      if thread.rest == "" && thread.value != [] then
        Some(Route(channel.value, account.value, chat.value, thread.value))
      else None
  }

  function ParseDedupKey(s: string): Option<(bytes, bytes, bytes)> {
    var channel :- ReadField("channel:", s);
    var account :- ReadField(":account:", channel.rest);
    var id :- ReadField(":message:", account.rest);
    if id.rest == "" then Some((channel.value, account.value, id.value)) else None
  }

  // ---------- reading undoes escaping, and only that ----------

  predicate AtBoundary(s: string) {
    s == "" || s[0] == ':'
  }

  lemma HexByteOfDigits(b: byte)
    ensures HexByte(HexDigit(b as int / 16), HexDigit(b as int % 16)) == Some(b)
  {
  }

  lemma DigitsOfHexByte(hi: char, lo: char)
    requires HexByte(hi, lo).Some?
    ensures var b := HexByte(hi, lo).value as int; HexDigit(b / 16) == hi && HexDigit(b % 16) == lo
  {
    hide HexDigit;
    var h, l := HexValue(hi).value, HexValue(lo).value;
    assert (16 * h + l) / 16 == h && (16 * h + l) % 16 == l;
  }

  lemma UnreservedIsPlain(b: byte)
    ensures Unreserved(b) ==> b != 43 && b != 37 && b != 58 && b != SPACE
  {
  }

  lemma ReadByteEscape(b: byte, rest: string)
    ensures ReadByte(EscapeByte(b) + rest) == Some((b, |EscapeByte(b)|))
    ensures EscapeByte(b) != "" && (EscapeByte(b) + rest)[0] != ':'
  {
    hide HexDigit, HexByte, HexValue, Unreserved;
    var s := EscapeByte(b) + rest;
    UnreservedIsPlain(b);
    HexByteOfDigits(b);
    assert EscapeByte(b) == s[..|EscapeByte(b)|];
    if b != SPACE && !Unreserved(b) {
      assert s[0] == '%' && s[1] == HexDigit(b as int / 16) && s[2] == HexDigit(b as int % 16);
    } else {
      assert s[0] == EscapeByte(b)[0];
    }
  }

  lemma ReadByteSound(s: string)
    requires s != "" && ReadByte(s).Some?
    ensures EscapeByte(ReadByte(s).value.0) == s[..ReadByte(s).value.1]
  {
    hide HexDigit, HexByte, HexValue, Unreserved;
    if s[0] == '%' {
      DigitsOfHexByte(s[1], s[2]);
    } else {
      UnreservedIsPlain(ReadByte(s).value.0);
    }
  }

  lemma {:induction false} ReadTokenEscape(v: bytes, rest: string)
    requires AtBoundary(rest)
    ensures ReadToken(Escape(v) + rest) == Some(Token(v, rest))
    decreases |v|
  {
    hide EscapeByte, ReadByte, Unreserved;
    if v == [] {
      assert Escape(v) + rest == rest;
    } else {
      var s := Escape(v[1..]) + rest;
      var head := EscapeByte(v[0]);
      assert Escape(v) + rest == head + s;
      ReadByteEscape(v[0], s);
      assert (head + s)[|head|..] == s;
      assert [v[0]] + v[1..] == v;
      ReadTokenEscape(v[1..], rest);
    }
  }

  lemma EscapeStep(b: byte, v: bytes)
    ensures Escape([b] + v) == EscapeByte(b) + Escape(v)
  {
    hide EscapeByte;
    assert ([b] + v)[1..] == v;
  }

  lemma ReadTokenStep(s: string)
    requires s != "" && s[0] != ':' && ReadToken(s).Some?
    ensures ReadByte(s).Some? && ReadToken(s[ReadByte(s).value.1..]).Some?
    ensures var b, t := ReadByte(s).value, ReadToken(s[ReadByte(s).value.1..]).value;
            ReadToken(s).value == Token([b.0] + t.value, t.rest)
  {
    hide ReadByte;
  }

  lemma ReadTokenEnd(s: string)
    requires AtBoundary(s)
    ensures ReadToken(s) == Some(Token([], s)) && s == Escape([]) + s
  {
  }

  lemma {:induction false} ReadTokenSound(s: string)
    requires ReadToken(s).Some?
    ensures s == Escape(ReadToken(s).value.value) + ReadToken(s).value.rest
    ensures AtBoundary(ReadToken(s).value.rest)
    decreases |s|
  {
    hide EscapeByte, ReadByte, Unreserved, Escape, ReadToken;
    if AtBoundary(s) {
      ReadTokenEnd(s);
    } else {
      ReadTokenStep(s);
      var b := ReadByte(s).value;
      ReadByteSound(s);
      ReadTokenSound(s[b.1..]);
      var t := ReadToken(s[b.1..]).value;
      EscapeStep(b.0, t.value);
      assert s == s[..b.1] + s[b.1..];
    }
  }

  lemma ReadFieldOf(tag: string, v: bytes, rest: string)
    requires AtBoundary(rest)
    ensures ReadField(tag, Field(tag, v) + rest) == Some(Token(v, rest))
  {
    hide ReadToken, Escape;
    var s := Field(tag, v) + rest;
    assert s == tag + (Escape(v) + rest);
    assert s[|tag|..] == Escape(v) + rest;
    ReadTokenEscape(v, rest);
  }

  lemma ReadFieldSound(tag: string, s: string)
    requires ReadField(tag, s).Some?
    ensures var t := ReadField(tag, s).value; s == Field(tag, t.value) + t.rest && AtBoundary(t.rest)
  {
    hide ReadToken, Escape;
    ReadTokenSound(s[|tag|..]);
    assert s == tag + s[|tag|..];
  }

  // ---------- main results ----------

  lemma StartsWithColon(tag: string, v: bytes, rest: string)
    requires tag != "" && tag[0] == ':'
    ensures AtBoundary(Field(tag, v) + rest)
    ensures Field(tag, v) + rest != "" && |Field(tag, v)| > 0
  {
    hide Escape;
  }

  // Every route, with empty components, delimiters inside components and with
  // or without a thread, is read back from its key.
  lemma SessionKeyRoundTrip(r: Route)
    ensures ParseSessionKey(BuildSessionKey(r)) == Some(r)
  {
    hide Field, ReadField, AtBoundary;
    var thread := if r.thread != [] then Field(":thread:", r.thread) else "";
    var chat := Field(":chat:", r.chat) + thread;
    var account := Field(":account:", r.account) + chat;
    Boundaries(r.thread);
    StartsWithColon(":account:", r.account, chat);
    StartsWithColon(":chat:", r.chat, thread);
    ReadFieldOf("channel:", r.channel, account);
    ReadFieldOf(":account:", r.account, chat);
    ReadFieldOf(":chat:", r.chat, thread);
    assert Field(":thread:", r.thread) + "" == Field(":thread:", r.thread);
    ReadFieldOf(":thread:", r.thread, "");
  }

  lemma Boundaries(thread: bytes)
    ensures AtBoundary("")
    ensures AtBoundary(if thread != [] then Field(":thread:", thread) else "")
    ensures Field(":thread:", thread) != ""
  {
    hide Escape;
  }

  // Only the keys of routes are read: nothing else addresses a conversation.
  lemma ParsedKeyIsBuilt(s: string)
    requires ParseSessionKey(s).Some?
    ensures BuildSessionKey(ParseSessionKey(s).value) == s
  {
    hide Field, ReadField, AtBoundary;
    ReadFieldSound("channel:", s);
    var channel := ReadField("channel:", s).value;
    ReadFieldSound(":account:", channel.rest);
    var account := ReadField(":account:", channel.rest).value;
    ReadFieldSound(":chat:", account.rest);
    var chat := ReadField(":chat:", account.rest).value;
    if chat.rest != "" {
      ReadFieldSound(":thread:", chat.rest);
      var thread := ReadField(":thread:", chat.rest).value;
      assert Field(":thread:", thread.value) + "" == Field(":thread:", thread.value);
    }
  }

  lemma EscapeOne(b: byte)
    ensures Escape([b]) == EscapeByte(b)
  {
    assert [b][1..] == [];
  }

  const HEX := "0123456789ABCDEF"

  function Written(b: byte): string {
    if b == 32 then "+"
    else if 'a' as int <= b as int <= 'z' as int || 'A' as int <= b as int <= 'Z' as int
            || '0' as int <= b as int <= '9' as int || (b as int as char) in "-_.~" then [b as int as char]
    else ['%', HEX[b as int / 16], HEX[b as int % 16]]
  }

  lemma EscapeByteIs(b: byte)
    ensures EscapeByte(b) == Written(b)
  {
    hide HEX, HexDigit;
    HexDigitIs(b as int / 16);
    HexDigitIs(b as int % 16);
  }

  // A space is written as a plus, letters, digits and four marks as they are,
  // and every other byte as a percent sign and two upper-case digits.
  lemma EscapedExactly(a: bytes, b: byte, c: bytes)
    ensures Escape(a + [b] + c) == Escape(a) + Written(b) + Escape(c)
  {
    hide Escape, EscapeByte, Written;
    EscapeConcat(a, [b] + c);
    EscapeStep(b, c);
    EscapeByteIs(b);
    assert a + [b] + c == a + ([b] + c);
  }

  lemma HexDigitIs(d: nat)
    requires d < 16
    ensures HexDigit(d) == HEX[d]
  {
  }

  lemma {:induction false} EscapeConcat(a: bytes, b: bytes)
    ensures Escape(a + b) == Escape(a) + Escape(b)
    decreases |a|
  {
    hide EscapeByte;
    if a == [] {
      assert a + b == b;
    } else {
      assert (a + b)[1..] == a[1..] + b;
      EscapeConcat(a[1..], b);
    }
  }

  lemma SampleEscapes()
    ensures Escape([97]) == "a" && Escape([98]) == "b" && Escape([45]) == "-" && Escape([55]) == "7"
  {
    EscapeOne(97);
    EscapeOne(98);
    EscapeOne(45);
    EscapeOne(55);
  }

  // The keys of a sample message, in a thread and outside.
  lemma SampleKeys()
    ensures BuildSessionKey(Route([97], [98], [45], [])) == "channel:a" + (":account:b" + ":chat:-")
    ensures BuildSessionKey(Route([97], [98], [45], [55])) == "channel:a" + (":account:b" + (":chat:-" + ":thread:7"))
    ensures DedupKey([97], [98], [55]) == "channel:a" + (":account:b" + ":message:7")
  {
    SampleFields();
    hide Field;
    assert ":chat:-" + "" == ":chat:-";
  }

  lemma SampleFields()
    ensures Field("channel:", [97]) == "channel:a" && Field(":account:", [98]) == ":account:b"
    ensures Field(":chat:", [45]) == ":chat:-" && Field(":thread:", [55]) == ":thread:7"
    ensures Field(":message:", [55]) == ":message:7"
  {
    hide Escape;
    SampleEscapes();
  }

  lemma SessionKeysAreInjective(a: Route, b: Route)
    ensures BuildSessionKey(a) == BuildSessionKey(b) <==> a == b
  {
    hide BuildSessionKey, ParseSessionKey;
    SessionKeyRoundTrip(a);
    SessionKeyRoundTrip(b);
  }

  lemma DedupKeyRoundTrip(channel: bytes, account: bytes, id: bytes)
    ensures ParseDedupKey(DedupKey(channel, account, id)) == Some((channel, account, id))
  {
    hide Field, ReadField, AtBoundary;
    var message := Field(":message:", id);
    Boundaries([]);
    assert message + "" == message;
    StartsWithColon(":message:", id, "");
    StartsWithColon(":account:", account, message);
    ReadFieldOf("channel:", channel, Field(":account:", account) + message);
    ReadFieldOf(":account:", account, message);
    ReadFieldOf(":message:", id, "");
  }

  // A message key is never mistaken for a conversation key.
  lemma KeySpacesAreDisjoint(r: Route, channel: bytes, account: bytes, id: bytes)
    ensures BuildSessionKey(r) != DedupKey(channel, account, id)
  {
    hide Field, ReadField, AtBoundary;
    var s := DedupKey(channel, account, id);
    var message := Field(":message:", id);
    Boundaries([]);
    assert message + "" == message;
    StartsWithColon(":message:", id, "");
    StartsWithColon(":account:", account, message);
    ReadFieldOf("channel:", channel, Field(":account:", account) + message);
    ReadFieldOf(":account:", account, message);
    NotAChat(id);
    assert ParseSessionKey(s) == None;
    SessionKeyRoundTrip(r);
  }

  lemma NotAChat(id: bytes)
    ensures ReadField(":chat:", Field(":message:", id)) == None
  {
    hide Escape, ReadToken;
    assert Field(":message:", id)[1] == 'm';
    assert ":chat:"[1] == 'c';
  }
}
