/** Session facts: the events of the log, the snapshot they fold into, and their
    one-line records (internal/sessionstore/store.go, `encode` of file.go). */
module Events {
  import opened Basics
  import opened Schema
  import Codec

  datatype Metadata = Metadata(
    id: string,
    workDir: string,
    createdAt: int,
    updatedAt: int,
    providerId: string,
    modelId: string,
    authType: string,
    billingMode: string,
    messages: int)

  // Cost is an amount in an abstract unit.
  datatype Usage = Usage(
    promptTokens: int,
    completionTokens: int,
    estimatedCost: int,
    costKnown: bool,
    currency: string,
    billingMode: string)

  datatype Snapshot = Snapshot(metadata: Metadata, history: seq<Message>, usage: Usage)

  datatype Event = Event(
    version: int,
    kind: string,
    timestamp: int,
    metadata: Option<Metadata>,
    message: Option<Message>,
    usage: Option<Usage>)

  datatype StoreError =
    | Corrupted
    | NotFound
    | Exists
    | InUse
    | Canceled
    | IdRequired
    | EncodeFailed
    | IoFailed
    | SessionClosed

  const NO_METADATA := Metadata("", "", 0, 0, "", "", "", "", 0)
  const NO_USAGE := Usage(0, 0, 0, false, "", "")
  const EMPTY := Snapshot(NO_METADATA, [], NO_USAGE)

  const SESSION_CREATED := "session_created"
  const METADATA_UPDATED := "metadata_updated"
  const MESSAGE := "message"
  const USAGE := "usage"

  // The snapshot after one more event, before the two derived fields are set.
  function ApplyPayload(s: Snapshot, e: Event): Result<Snapshot, StoreError> {
    if e.version != 1 then Err(Corrupted)
    else if e.kind == SESSION_CREATED then
      if e.metadata.None? || s.metadata.id != "" then Err(Corrupted)
      else Ok(s.(metadata := e.metadata.value, usage := if e.usage.Some? then e.usage.value else s.usage))
    else if e.kind == METADATA_UPDATED then
      if e.metadata.None? || e.metadata.value.id != s.metadata.id then Err(Corrupted)
      else Ok(s.(metadata := e.metadata.value))
    else if e.kind == MESSAGE then
      if e.message.None? || s.metadata.id == "" then Err(Corrupted)
      else Ok(s.(history := s.history + [e.message.value]))
    else if e.kind == USAGE then
      if e.usage.None? || s.metadata.id == "" then Err(Corrupted)
      else Ok(s.(usage := e.usage.value))
    else Err(Corrupted)
  }

  function Apply(s: Snapshot, e: Event): Result<Snapshot, StoreError> {
    var t :- ApplyPayload(s, e);
    Ok(t.(metadata := t.metadata.(updatedAt := e.timestamp, messages := |t.history|)))
  }

  function ApplyAll(s: Snapshot, es: seq<Event>): Result<Snapshot, StoreError>
    decreases es
  {
    if es == [] then Ok(s)
    else
      var t :- Apply(s, es[0]);
      ApplyAll(t, es[1..])
  }

  function MessageEvent(m: Message, now: int): Event {
    Event(1, MESSAGE, now, None, Some(m), None)
  }

  function UsageEvent(u: Usage, now: int): Event {
    Event(1, USAGE, now, None, None, Some(u))
  }

  function MessageEvents(ms: seq<Message>, now: int): (es: seq<Event>)
    ensures |es| == |ms|
    ensures forall i :: 0 <= i < |ms| ==> es[i] == MessageEvent(ms[i], now)
  {
    if ms == [] then [] else [MessageEvent(ms[0], now)] + MessageEvents(ms[1..], now)
  }

  function Creation(s: Snapshot, now: int): seq<Event> {
    [Event(1, SESSION_CREATED, s.metadata.createdAt, Some(s.metadata), None, Some(s.usage))]
      + MessageEvents(s.history, now)
  }

  lemma {:induction false} ApplyAllAppend(s: Snapshot, a: seq<Event>, b: seq<Event>)
    requires ApplyAll(s, a).Ok?
    ensures ApplyAll(s, a + b) == ApplyAll(ApplyAll(s, a).value, b)
    decreases a
  {
    if a == [] {
      assert a + b == b;
    } else {
      assert (a + b)[1..] == a[1..] + b;
      ApplyAllAppend(Apply(s, a[0]).value, a[1..], b);
    }
  }

  // A session keeps its ID and never loses a message.
  lemma {:induction false} ApplyAllKeeps(s: Snapshot, es: seq<Event>)
    requires s.metadata.id != ""
    requires ApplyAll(s, es).Ok?
    ensures ApplyAll(s, es).value.metadata.id == s.metadata.id
    ensures s.history <= ApplyAll(s, es).value.history
    ensures es != [] ==> ApplyAll(s, es).value.metadata.messages == |ApplyAll(s, es).value.history|
    decreases es
  {
    if es != [] {
      ApplyAllKeeps(Apply(s, es[0]).value, es[1..]);
    }
  }

  // Message events always apply to a created session, and only add messages.
  lemma {:induction false} ApplyMessages(s: Snapshot, ms: seq<Message>, now: int)
    requires s.metadata.id != ""
    ensures ApplyAll(s, MessageEvents(ms, now)).Ok?
    ensures ApplyAll(s, MessageEvents(ms, now)).value.history == s.history + ms
    ensures ApplyAll(s, MessageEvents(ms, now)).value.usage == s.usage
    ensures ApplyAll(s, MessageEvents(ms, now)).value.metadata.id == s.metadata.id
    ensures ms != [] ==> ApplyAll(s, MessageEvents(ms, now)).value.metadata
                         == s.metadata.(updatedAt := now, messages := |s.history| + |ms|)
    decreases ms
  {
    hide Apply, ApplyAll, MessageEvent, MessageEvents;
    if ms == [] {
      NoMessageEvents(s, now);
    } else {
      var t := Apply(s, MessageEvent(ms[0], now));
      ApplyMessage(s, ms[0], now);
      ApplyMessages(t.value, ms[1..], now);
      FirstMessageEvent(s, ms, now);
      assert s.history + [ms[0]] + ms[1..] == s.history + ms;
      if |ms| == 1 {
        NoMessageEvents(t.value, now);
      }
    }
  }

  lemma NoMessageEvents(s: Snapshot, now: int)
    ensures ApplyAll(s, MessageEvents([], now)) == Ok(s)
  {
  }

  lemma FirstMessageEvent(s: Snapshot, ms: seq<Message>, now: int)
    requires ms != [] && Apply(s, MessageEvent(ms[0], now)).Ok?
    ensures ApplyAll(s, MessageEvents(ms, now))
            == ApplyAll(Apply(s, MessageEvent(ms[0], now)).value, MessageEvents(ms[1..], now))
    ensures |ms| == 1 ==> ms[1..] == []
  {
    hide Apply;
    assert MessageEvents(ms, now)[1..] == MessageEvents(ms[1..], now);
  }

  lemma ApplyMessage(s: Snapshot, m: Message, now: int)
    requires s.metadata.id != ""
    ensures Apply(s, MessageEvent(m, now))
            == Ok(Snapshot(s.metadata.(updatedAt := now, messages := |s.history| + 1), s.history + [m], s.usage))
  {
  }

  // What a created session is: the snapshot with the two derived fields set.
  function Created(s: Snapshot, now: int): Snapshot {
    s.(metadata := s.metadata.(updatedAt := if s.history == [] then s.metadata.createdAt else now, messages := |s.history|))
  }

  // The creation batch of a snapshot with an ID always applies, and it
  // rebuilds that snapshot.
  lemma CreationRebuilds(s: Snapshot, now: int)
    requires s.metadata.id != ""
    ensures ApplyAll(EMPTY, Creation(s, now)).Ok?
    ensures ApplyAll(EMPTY, Creation(s, now)).value.metadata.id == s.metadata.id
    ensures ApplyAll(EMPTY, Creation(s, now)).value.history == s.history
    ensures ApplyAll(EMPTY, Creation(s, now)).value.usage == s.usage
    ensures ApplyAll(EMPTY, Creation(s, now)).value == Created(s, now)
  {
    var es := Creation(s, now);
    var t := Apply(EMPTY, es[0]).value;
    assert es[1..] == MessageEvents(s.history, now);
    ApplyMessages(t, s.history, now);
  }

  // ---------- what a log amounts to ----------

  predicate CarriesMetadata(e: Event) {
    (e.kind == SESSION_CREATED || e.kind == METADATA_UPDATED) && e.metadata.Some?
  }

  predicate CarriesUsage(e: Event) {
    (e.kind == SESSION_CREATED || e.kind == USAGE) && e.usage.Some?
  }

  // The metadata a log leaves behind: the last it carries, whole.
  function LastMetadata(m: Metadata, es: seq<Event>): Metadata {
    if es == [] then m
    else
      var n := |es| - 1;
      if CarriesMetadata(es[n]) then es[n].metadata.value else LastMetadata(m, es[..n])
  }

  // Usage events carry totals: the last one counts.
  function LastUsage(u: Usage, es: seq<Event>): Usage {
    if es == [] then u
    else
      var n := |es| - 1;
      if CarriesUsage(es[n]) then es[n].usage.value else LastUsage(u, es[..n])
  }

  function MessagesIn(es: seq<Event>): seq<Message> {
    if es == [] then []
    else
      var n := |es| - 1;
      MessagesIn(es[..n]) + (if es[n].kind == MESSAGE && es[n].message.Some? then [es[n].message.value] else [])
  }

  lemma ApplySnoc(s: Snapshot, es: seq<Event>)
    requires es != [] && ApplyAll(s, es).Ok?
    ensures var n := |es| - 1;
            && ApplyAll(s, es[..n]).Ok?
            && Apply(ApplyAll(s, es[..n]).value, es[n]) == ApplyAll(s, es)
  {
    hide Apply;
    var n := |es| - 1;
    assert es == es[..n] + [es[n]];
    ApplyPrefixOk(s, es, n);
    ApplyAllAppend(s, es[..n], [es[n]]);
    ApplyOne(ApplyAll(s, es[..n]).value, es[n]);
  }

  lemma {:induction false} ApplyPrefixOk(s: Snapshot, es: seq<Event>, n: nat)
    requires n <= |es| && ApplyAll(s, es).Ok?
    ensures ApplyAll(s, es[..n]).Ok?
    decreases n
  {
    hide Apply;
    if n > 0 {
      assert es[..n][1..] == es[1..][..n - 1];
      ApplyPrefixOk(Apply(s, es[0]).value, es[1..], n - 1);
    }
  }

  lemma ApplyOne(s: Snapshot, e: Event)
    ensures ApplyAll(s, [e]) == Apply(s, e)
  {
    hide Apply;
    if Apply(s, e).Ok? {
      assert ApplyAll(Apply(s, e).value, [e][1..]) == Apply(s, e);
    }
  }

  lemma ApplyIs(s: Snapshot, e: Event)
    requires Apply(s, e).Ok?
    ensures var t := Apply(s, e).value;
            && t.history == s.history + (if e.kind == MESSAGE && e.message.Some? then [e.message.value] else [])
            && t.usage == (if CarriesUsage(e) then e.usage.value else s.usage)
            && t.metadata == (if CarriesMetadata(e) then e.metadata.value else s.metadata)
                             .(updatedAt := e.timestamp, messages := |t.history|)
  {
  }

  // Whatever a batch holds: the messages are added in order, the last totals and
  // the last metadata stand, and only the time of the last update and the number
  // of messages are derived.
  lemma {:induction false} ApplyAllIs(s: Snapshot, es: seq<Event>)
    requires es != [] && ApplyAll(s, es).Ok?
    ensures var t := ApplyAll(s, es).value;
            && t.history == s.history + MessagesIn(es)
            && t.usage == LastUsage(s.usage, es)
            && t.metadata == LastMetadata(s.metadata, es)
                             .(updatedAt := es[|es| - 1].timestamp, messages := |s.history| + |MessagesIn(es)|)
    decreases |es|
  {
    hide Apply, CarriesMetadata, CarriesUsage;
    var n := |es| - 1;
    ApplySnoc(s, es);
    var u := ApplyAll(s, es[..n]).value;
    ApplyIs(u, es[n]);
    if n > 0 {
      ApplyAllIs(s, es[..n]);
    } else {
      assert es[..n] == [];
    }
  }

  // Which event applies to a session with this ID, "" for one not yet created.
  predicate Applies(id: string, e: Event) {
    && e.version == 1
    && (|| (e.kind == SESSION_CREATED && e.metadata.Some? && id == "")
        || (e.kind == METADATA_UPDATED && e.metadata.Some? && e.metadata.value.id == id)
        || (e.kind == MESSAGE && e.message.Some? && id != "")
        || (e.kind == USAGE && e.usage.Some? && id != ""))
  }

  // A batch applies exactly when each event applies to the session with the ID
  // the events before it leave behind.
  lemma {:induction false} AppliesExactly(s: Snapshot, es: seq<Event>)
    ensures ApplyAll(s, es).Ok? <==>
            forall k :: 0 <= k < |es| ==> Applies(LastMetadata(s.metadata, es[..k]).id, es[k])
    decreases |es|
  {
    hide Apply, CarriesMetadata, Applies;
    if es != [] {
      var n := |es| - 1;
      AppliesExactly(s, es[..n]);
      assert forall k :: 0 <= k <= n ==> es[..n][..k] == es[..k];
      if ApplyAll(s, es[..n]).Ok? {
        var u := ApplyAll(s, es[..n]).value;
        IdIs(s, es[..n]);
        AppliesOne(u, es[n]);
        assert es == es[..n] + [es[n]];
        ApplyAllAppend(s, es[..n], [es[n]]);
        ApplyOne(u, es[n]);
      } else if ApplyAll(s, es).Ok? {
        ApplyPrefixOk(s, es, n);
      }
    }
  }

  lemma IdIs(s: Snapshot, es: seq<Event>)
    requires ApplyAll(s, es).Ok?
    ensures ApplyAll(s, es).value.metadata.id == LastMetadata(s.metadata, es).id
  {
    hide Apply, CarriesMetadata;
    if es != [] {
      ApplyAllIs(s, es);
    }
  }

  lemma AppliesOne(s: Snapshot, e: Event)
    ensures Apply(s, e).Ok? <==> Applies(s.metadata.id, e)
  {
  }

  // ---------- events as codec values ----------

  function ListValue(vs: seq<Codec.Value>): Codec.Value {
    if vs == [] then Codec.Nil else Codec.Pair(vs[0], ListValue(vs[1..]))
  }

  function Elements(v: Codec.Value): seq<Codec.Value> {
    match v
    case Pair(h, t) => [h] + Elements(t)
    case _ => []
  }

  lemma {:induction false} ElementsOfList(vs: seq<Codec.Value>)
    ensures Elements(ListValue(vs)) == vs
  {
    if vs != [] {
      ElementsOfList(vs[1..]);
    }
  }

  function BoolValue(b: bool): Codec.Value {
    Codec.Num(if b then 1 else 0)
  }

  function MetadataValue(m: Metadata): Codec.Value {
    ListValue([Codec.Text(m.id), Codec.Text(m.workDir), Codec.Num(m.createdAt), Codec.Num(m.updatedAt),
               Codec.Text(m.providerId), Codec.Text(m.modelId), Codec.Text(m.authType), Codec.Text(m.billingMode),
               Codec.Num(m.messages)])
  }

  function ToMetadata(v: Codec.Value): Option<Metadata> {
    var f := Elements(v);
    if |f| == 9 && f[0].Text? && f[1].Text? && f[2].Num? && f[3].Num? && f[4].Text? && f[5].Text? && f[6].Text?
       && f[7].Text? && f[8].Num?
    then Some(Metadata(f[0].s, f[1].s, f[2].n, f[3].n, f[4].s, f[5].s, f[6].s, f[7].s, f[8].n))
    else None
  }

  function UsageValue(u: Usage): Codec.Value {
    ListValue([Codec.Num(u.promptTokens), Codec.Num(u.completionTokens), Codec.Num(u.estimatedCost),
               BoolValue(u.costKnown), Codec.Text(u.currency), Codec.Text(u.billingMode)])
  }

  function ToUsage(v: Codec.Value): Option<Usage> {
    var f := Elements(v);
    if |f| == 6 && f[0].Num? && f[1].Num? && f[2].Num? && f[3].Num? && f[4].Text? && f[5].Text?
    then Some(Usage(f[0].n, f[1].n, f[2].n, f[3].n == 1, f[4].s, f[5].s))
    else None
  }

  function CallValue(c: ToolCall): Codec.Value {
    ListValue([Codec.Text(c.id), Codec.Text(c.name), Codec.Text(c.arguments)])
  }

  function ToCall(v: Codec.Value): Option<ToolCall> {
    var f := Elements(v);
    if |f| == 3 && f[0].Text? && f[1].Text? && f[2].Text? then Some(ToolCall(f[0].s, f[1].s, f[2].s)) else None
  }

  function CallsValue(cs: seq<ToolCall>): Codec.Value {
    if cs == [] then Codec.Nil else Codec.Pair(CallValue(cs[0]), CallsValue(cs[1..]))
  }

  function ToCalls(v: Codec.Value): Option<seq<ToolCall>> {
    match v
    case Nil => Some([])
    case Pair(h, t) =>
      var c :- ToCall(h);
      var cs :- ToCalls(t);
      Some([c] + cs)
    case _ => None
  }

  function TokenUsageValue(u: Option<TokenUsage>): Codec.Value {
    if u.None? then Codec.Nil
    else ListValue([Codec.Num(u.value.prompt), Codec.Num(u.value.completion), Codec.Num(u.value.cached)])
  }

  function ToTokenUsage(v: Codec.Value): Option<Option<TokenUsage>> {
    var f := Elements(v);
    if v.Nil? then Some(None)
    else if |f| == 3 && f[0].Num? && f[1].Num? && f[2].Num? then Some(Some(TokenUsage(f[0].n, f[1].n, f[2].n)))
    else None
  }

  function MessageValue(m: Message): Codec.Value {
    ListValue([Codec.Text(m.role), Codec.Text(m.content), CallsValue(m.toolCalls), Codec.Text(m.toolCallId),
               TokenUsageValue(m.usage)])
  }

  function ToMessage(v: Codec.Value): Option<Message> {
    var f := Elements(v);
    if |f| == 5 && f[0].Text? && f[1].Text? && f[3].Text? then
      var cs :- ToCalls(f[2]);
      var u :- ToTokenUsage(f[4]);
      Some(Message(f[0].s, f[1].s, cs, f[3].s, u))
    else None
  }

  // Optional parts: absent is Nil, present is a one-element list.
  function OptionalValue(v: Option<Codec.Value>): Codec.Value {
    if v.None? then Codec.Nil else Codec.Pair(v.value, Codec.Nil)
  }

  function EventValue(e: Event): Codec.Value {
    ListValue([Codec.Num(e.version), Codec.Text(e.kind), Codec.Num(e.timestamp),
               OptionalValue(if e.metadata.None? then None else Some(MetadataValue(e.metadata.value))),
               OptionalValue(if e.message.None? then None else Some(MessageValue(e.message.value))),
               OptionalValue(if e.usage.None? then None else Some(UsageValue(e.usage.value)))])
  }

  function ToOptional<T>(v: Codec.Value, to: Codec.Value -> Option<T>): Option<Option<T>> {
    if v.Nil? then Some(None)
    else if v.Pair? && v.tail.Nil? then
      var x :- to(v.head);
      Some(Some(x))
    else None
  }

  function ToEvent(v: Codec.Value): Option<Event> {
    var f := Elements(v);
    if |f| == 6 && f[0].Num? && f[1].Text? && f[2].Num? then
      var m :- ToOptional(f[3], ToMetadata);
      var msg :- ToOptional(f[4], ToMessage);
      var u :- ToOptional(f[5], ToUsage);
      Some(Event(f[0].n, f[1].s, f[2].n, m, msg, u))
    else None
  }

  lemma MetadataRoundTrip(m: Metadata)
    ensures ToMetadata(MetadataValue(m)) == Some(m)
  {
    ElementsOfList([Codec.Text(m.id), Codec.Text(m.workDir), Codec.Num(m.createdAt), Codec.Num(m.updatedAt),
                    Codec.Text(m.providerId), Codec.Text(m.modelId), Codec.Text(m.authType),
                    Codec.Text(m.billingMode), Codec.Num(m.messages)]);
  }

  lemma UsageRoundTrip(u: Usage)
    ensures ToUsage(UsageValue(u)) == Some(u)
  {
    ElementsOfList([Codec.Num(u.promptTokens), Codec.Num(u.completionTokens), Codec.Num(u.estimatedCost),
                    BoolValue(u.costKnown), Codec.Text(u.currency), Codec.Text(u.billingMode)]);
  }

  lemma {:induction false} CallsRoundTrip(cs: seq<ToolCall>)
    ensures ToCalls(CallsValue(cs)) == Some(cs)
  {
    if cs != [] {
      var c := cs[0];
      ElementsOfList([Codec.Text(c.id), Codec.Text(c.name), Codec.Text(c.arguments)]);
      assert ToCall(CallValue(c)) == Some(c);
      CallsRoundTrip(cs[1..]);
      assert [c] + cs[1..] == cs;
    }
  }

  lemma MessageRoundTrip(m: Message)
    ensures ToMessage(MessageValue(m)) == Some(m)
  {
    ElementsOfList([Codec.Text(m.role), Codec.Text(m.content), CallsValue(m.toolCalls), Codec.Text(m.toolCallId),
                    TokenUsageValue(m.usage)]);
    CallsRoundTrip(m.toolCalls);
    if m.usage.Some? {
      var u := m.usage.value;
      ElementsOfList([Codec.Num(u.prompt), Codec.Num(u.completion), Codec.Num(u.cached)]);
    }
  }

  lemma EventRoundTrip(e: Event)
    ensures ToEvent(EventValue(e)) == Some(e)
  {
    hide ToMetadata, MetadataValue, ToMessage, MessageValue, ToUsage, UsageValue;
    var m := OptionalValue(if e.metadata.None? then None else Some(MetadataValue(e.metadata.value)));
    var msg := OptionalValue(if e.message.None? then None else Some(MessageValue(e.message.value)));
    var u := OptionalValue(if e.usage.None? then None else Some(UsageValue(e.usage.value)));
    ElementsOfList([Codec.Num(e.version), Codec.Text(e.kind), Codec.Num(e.timestamp), m, msg, u]);
    if e.metadata.Some? {
      MetadataRoundTrip(e.metadata.value);
    }
    if e.message.Some? {
      MessageRoundTrip(e.message.value);
    }
    if e.usage.Some? {
      UsageRoundTrip(e.usage.value);
    }
  }

  // ---------- records ----------

  function Record(e: Event): bytes {
    Codec.Print(EventValue(e))
  }

  function ParseRecord(line: bytes): Option<Event> {
    var v :- Codec.ParseAll(line);
    ToEvent(v)
  }

  // The three facts the log needs of its records.
  lemma RecordFacts(e: Event)
    ensures Codec.NEWLINE !in Record(e)
    ensures ParseRecord(Record(e)) == Some(e)
    ensures forall k :: 0 <= k < |Record(e)| ==> ParseRecord(Record(e)[..k]) == None
    ensures |Record(e)| > 0
  {
    Codec.PrintNewlineFree(EventValue(e));
    Codec.ParseAllPrint(EventValue(e));
    EventRoundTrip(e);
    forall k | 0 <= k < |Record(e)|
      ensures ParseRecord(Record(e)[..k]) == None
    {
      Codec.StrictPrefixNeverParses(EventValue(e), k);
    }
  }

  // Tool arguments are embedded verbatim, so they must be well formed.
  function Ascii(s: string): Option<bytes> {
    if s == "" then Some([])
    else if s[0] as int >= 128 then None
    else
      var rest :- Ascii(s[1..]);
      Some([s[0] as int as byte] + rest)
  }

  predicate WellFormedArguments(s: string) {
    Ascii(s).Some? && Codec.ParseAll(Ascii(s).value).Some?
  }

  predicate Encodable(e: Event) {
    e.message.Some? ==> forall c :: c in e.message.value.toolCalls ==> WellFormedArguments(c.arguments)
  }

  // One line per event.
  function Lines(es: seq<Event>): bytes {
    if es == [] then [] else Record(es[0]) + [Codec.NEWLINE] + Lines(es[1..])
  }

  predicate AllEncodable(es: seq<Event>) {
    forall e :: e in es ==> Encodable(e)
  }

  lemma EmptyIsEncodable(s: Snapshot, now: int)
    requires s.history == []
    ensures AllEncodable(Creation(s, now))
  {
    assert Creation(s, now) == [Creation(s, now)[0]];
  }

  method Encode(es: seq<Event>) returns (r: Result<bytes, StoreError>)
    ensures r == if AllEncodable(es) then Ok(Lines(es)) else Err(EncodeFailed)
  {
    hide Encodable, Record, Lines;
    var b: bytes := [];
    assert es[0..] == es;
    for i := 0 to |es|
      invariant AllEncodable(es[..i])
      invariant Lines(es) == b + Lines(es[i..])
    {
      LinesFrom(es, i);
      assert es[..i + 1] == es[..i] + [es[i]];
      if !Encodable(es[i]) {
        assert es[i] in es;
        return Err(EncodeFailed);
      }
      b := b + Record(es[i]) + [Codec.NEWLINE];
    }
    assert es[..|es|] == es && es[|es|..] == [];
    NoLines();
    assert b + [] == b;
    return Ok(b);
  }

  lemma LinesFrom(es: seq<Event>, i: nat)
    requires i < |es|
    ensures Lines(es[i..]) == Record(es[i]) + [Codec.NEWLINE] + Lines(es[i + 1..])
  {
    hide Record;
    assert es[i..][1..] == es[i + 1..];
  }

  lemma NoLines()
    ensures Lines([]) == []
  {
  }
}
