/** Server-sent events as the streaming reader frames them
    (internal/provider/openai/responses.go, `readEvents`), beside the rules of
    section 9.2.6 of the WHATWG HTML Standard. */
module Framing {
  import opened Strings

  // A dispatched event: its data lines joined, and the event name.
  datatype Frame = Frame(payload: string, name: string)

  datatype Pending = Pending(data: seq<string>, name: string)

  const NOTHING := Pending([], "")
  const DONE := "[DONE]"
  const BOM := "\U{feff}"

  // ---------- lines of the stream (bufio.Scanner) ----------

  function DropReturn(line: string): string {
    if line != "" && line[|line| - 1] == '\r' then line[..|line| - 1] else line
  }

  function DropReturns(lines: seq<string>): (r: seq<string>)
    ensures |r| == |lines| && forall i :: 0 <= i < |r| ==> r[i] == DropReturn(lines[i])
  {
    seq(|lines|, i requires 0 <= i < |lines| => DropReturn(lines[i]))
  }

  function ScanLines(stream: string): seq<string> {
    var lines := Split(stream);
    DropReturns(if lines[|lines| - 1] == "" then lines[..|lines| - 1] else lines)
  }

  // The first line may carry a byte order mark.
  function StreamLines(stream: string): seq<string> {
    var lines := ScanLines(stream);
    if lines == [] then [] else [TrimPrefix(lines[0], BOM)] + lines[1..]
  }

  // ---------- what the reader does with a line ----------

  function Absorb(p: Pending, line: string): Pending {
    if HasPrefix(line, "data:") then p.(data := p.data + [TrimPrefix(TrimPrefix(line, "data:"), " ")])
    else if HasPrefix(line, "event:") then p.(name := TrimSpace(TrimPrefix(line, "event:")))
    else p
  }

  function Dispatched(p: Pending): seq<Frame> {
    if p.data == [] || Join(p.data) == DONE then [] else [Frame(Join(p.data), p.name)]
  }

  // A blank line dispatches, and so does the end of the stream when nothing
  // went wrong before it.
  function Frames(p: Pending, lines: seq<string>, atEnd: bool): seq<Frame>
    decreases |lines|
  {
    if lines == [] then if atEnd then Dispatched(p) else []
    else if lines[0] == "" then Dispatched(p) + Frames(NOTHING, lines[1..], atEnd)
    else Frames(Absorb(p, lines[0]), lines[1..], atEnd)
  }

  // ---------- the standard's rules ----------

  function Colon(line: string): (k: nat)
    ensures k <= |line| && ':' !in line[..k] && (k < |line| ==> line[k] == ':')
  {
    if line == "" || line[0] == ':' then 0
    else
      var k := 1 + Colon(line[1..]);
      assert line[..k] == [line[0]] + line[1..][..k - 1];
      k
  }

  function FieldName(line: string): string {
    line[..Colon(line)]
  }

  function FieldValue(line: string): string {
    if Colon(line) == |line| then "" else TrimPrefix(line[Colon(line) + 1..], " ")
  }

  function StandardField(p: Pending, line: string): Pending {
    if FieldName(line) == "data" then p.(data := p.data + [FieldValue(line)])
    else if FieldName(line) == "event" then p.(name := FieldValue(line))
    else p
  }

  // The end of a stream discards what is pending.
  function StandardFrames(p: Pending, lines: seq<string>): seq<Frame>
    decreases |lines|
  {
    if lines == [] then []
    else if lines[0] == "" then
      (if p.data == [] then [] else [Frame(Join(p.data), p.name)]) + StandardFrames(NOTHING, lines[1..])
    else StandardFrames(StandardField(p, lines[0]), lines[1..])
  }

  function WithoutDone(frames: seq<Frame>): seq<Frame> {
    if frames == [] then []
    else (if frames[0].payload == DONE then [] else [frames[0]]) + WithoutDone(frames[1..])
  }

  // The lines on which both agree: a field is written with its colon, and an
  // event name has no blanks but the one after the colon.
  predicate Conventional(line: string) {
    line != "data" && line != "event"
    && (FieldName(line) == "event" ==> TrimSpace(line[6..]) == FieldValue(line))
  }

  lemma ColonIs(line: string, field: string)
    requires ':' !in field
    ensures field + ":" <= line <==> FieldName(line) == field && line != field
    ensures field + ":" <= line ==> Colon(line) == |field|
  {
    var k, n := Colon(line), |field|;
    assert forall i :: 0 <= i < n ==> field[i] != ':';
    assert forall i :: 0 <= i < k ==> line[..k][i] == line[i] && line[i] != ':';
    if field + ":" <= line {
      assert line[..n + 1] == field + ":";
      assert forall i :: 0 <= i < n ==> line[i] == line[..n + 1][i] == field[i];
      assert line[n] == line[..n + 1][n] == ':';
    }
  }

  lemma AbsorbIsStandard(p: Pending, line: string)
    requires Conventional(line)
    ensures Absorb(p, line) == StandardField(p, line)
  {
    hide TrimSpace, Colon;
    ColonIs(line, "data");
    ColonIs(line, "event");
    assert "data" + ":" == "data:" && "event" + ":" == "event:";
  }

  lemma DispatchStep(p: Pending, rest: seq<Frame>)
    ensures Dispatched(p) + WithoutDone(rest) ==
            WithoutDone((if p.data == [] then [] else [Frame(Join(p.data), p.name)]) + rest)
  {
    hide Join;
    if p.data == [] {
      assert [] + rest == rest;
    } else {
      var f := [Frame(Join(p.data), p.name)];
      assert (f + rest)[1..] == rest;
    }
  }

  // On conventional lines the reader frames as the standard does. What is left
  // when the stream ends is dispatched too, as if a blank line followed.
  lemma {:induction false} FramesAreStandard(p: Pending, lines: seq<string>, atEnd: bool)
    requires forall i :: 0 <= i < |lines| ==> Conventional(lines[i])
    ensures Frames(p, lines, atEnd) ==
            WithoutDone(StandardFrames(p, lines + if atEnd then [""] else []))
    decreases |lines|
  {
    hide Absorb, StandardField, Join, Conventional;
    var rest := if atEnd then [""] else [];
    var all := lines + rest;
    if lines == [] {
      assert all == rest;
      DispatchStep(p, []);
      if atEnd {
        assert all[1..] == [];
      }
    } else {
      assert all[0] == lines[0] && all[1..] == lines[1..] + rest;
      if lines[0] == "" {
        DispatchStep(p, StandardFrames(NOTHING, all[1..]));
        FramesAreStandard(NOTHING, lines[1..], atEnd);
      } else {
        AbsorbIsStandard(p, lines[0]);
        FramesAreStandard(Absorb(p, lines[0]), lines[1..], atEnd);
      }
    }
  }

  // What the reader holds when the lines are over.
  function LeftPending(p: Pending, lines: seq<string>): Pending
    decreases |lines|
  {
    if lines == [] then p
    else LeftPending(if lines[0] == "" then NOTHING else Absorb(p, lines[0]), lines[1..])
  }

  // The end of the stream adds one frame at most: what is still pending.
  lemma {:induction false} EndAddsPending(p: Pending, lines: seq<string>)
    ensures Frames(p, lines, true) == Frames(p, lines, false) + Dispatched(LeftPending(p, lines))
    decreases |lines|
  {
    hide Absorb, Dispatched;
    if lines != [] {
      EndAddsPending(if lines[0] == "" then NOTHING else Absorb(p, lines[0]), lines[1..]);
    }
  }

  // On conventional lines the reader yields just what the standard yields
  // exactly when the stream broke off, or no frame but the terminator is left
  // without its blank line.
  lemma StandardExactly(p: Pending, lines: seq<string>, atEnd: bool)
    requires forall i :: 0 <= i < |lines| ==> Conventional(lines[i])
    ensures Frames(p, lines, atEnd) == WithoutDone(StandardFrames(p, lines))
            <==> !atEnd || LeftPending(p, lines).data == [] || Join(LeftPending(p, lines).data) == DONE
  {
    hide Frames, StandardFrames, WithoutDone, Conventional, LeftPending, Join;
    FramesAreStandard(p, lines, false);
    assert lines + [] == lines;
    EndAddsPending(p, lines);
  }

  // A last frame without its blank line: the reader dispatches it, the standard
  // discards it.
  lemma UndelimitedFrame()
    ensures Frames(NOTHING, ["data: x"], true) == [Frame("x", "")]
    ensures StandardFrames(NOTHING, ["data: x"]) == []
    ensures Conventional("data: x")
  {
    hide TrimSpace, Colon, Absorb, StandardField;
    AbsorbDataLine(NOTHING, "x");
    assert "data: " + "x" == "data: x";
    ColonIs("data: x", "data");
    assert "data" + ":" == "data:" && "data:" <= "data: x";
    assert ["data: x"][1..] == [];
    assert Join(["x"]) == "x";
  }

  // What the reader does with any other line, beside the standard: a field name
  // without its colon is ignored, where the standard takes an empty value, and
  // an event name loses its outer blanks.
  lemma OtherLines(p: Pending, line: string)
    requires !Conventional(line)
    ensures line == "data" ==> Absorb(p, line) == p && StandardField(p, line) == p.(data := p.data + [""])
    ensures line == "event" ==> Absorb(p, line) == p && StandardField(p, line) == p.(name := "")
    ensures line != "data" && line != "event" ==>
              && StandardField(p, line) == p.(name := FieldValue(line))
              && Absorb(p, line) == p.(name := TrimSpace(FieldValue(line))) && TrimSpace(FieldValue(line)) != FieldValue(line)
  {
    hide TrimSpace, Colon;
    ColonIs(line, "data");
    ColonIs(line, "event");
    assert "data" + ":" == "data:" && "event" + ":" == "event:";
    if line == "data" || line == "event" {
      BareField(line);
    } else {
      var rest := line[6..];
      if " " <= rest {
        TrimLeading(rest[1..]);
        assert rest == " " + rest[1..];
      }
    }
  }

  lemma BareField(line: string)
    requires line == "data" || line == "event"
    ensures FieldName(line) == line && FieldValue(line) == ""
    ensures !("data:" <= line) && !("event:" <= line)
  {
    assert forall i :: 0 <= i < |line| ==> line[i] != ':';
  }

  // Line by line, the reader does what the standard does exactly on the
  // conventional lines, and on a bare event field that has nothing to reset.
  lemma LineExactly(p: Pending, line: string)
    ensures Absorb(p, line) == StandardField(p, line) <==> Conventional(line) || (line == "event" && p.name == "")
  {
    hide Absorb, StandardField, Conventional;
    if Conventional(line) {
      AbsorbIsStandard(p, line);
    } else {
      OtherLines(p, line);
      BareAreOther();
    }
  }

  lemma BareAreOther()
    ensures !Conventional("data") && !Conventional("event")
  {
  }

  // ---------- writing a stream ----------

  function DataLines(data: seq<string>): seq<string> {
    if data == [] then [] else ["data: " + data[0]] + DataLines(data[1..])
  }

  function FrameLines(f: Frame): seq<string> {
    ["event: " + f.name] + DataLines(Split(f.payload)) + [""]
  }

  function EncodeLines(frames: seq<Frame>): seq<string> {
    if frames == [] then [] else FrameLines(frames[0]) + EncodeLines(frames[1..])
  }

  function EncodeStream(frames: seq<Frame>): string {
    Join(EncodeLines(frames) + [""])
  }

  predicate Writable(f: Frame) {
    f.payload != DONE && '\r' !in f.payload
    && '\r' !in f.name && '\n' !in f.name && TrimSpace(f.name) == f.name
  }

  lemma {:induction false} AbsorbData(p: Pending, data: seq<string>, rest: seq<string>, atEnd: bool)
    ensures Frames(p, DataLines(data) + rest, atEnd) == Frames(p.(data := p.data + data), rest, atEnd)
    decreases |data|
  {
    hide Dispatched, TrimSpace;
    var lines := DataLines(data) + rest;
    if data == [] {
      assert lines == rest && p.data + data == p.data;
    } else {
      assert lines[0] == "data: " + data[0] && lines[1..] == DataLines(data[1..]) + rest;
      AbsorbDataLine(p, data[0]);
      var q := p.(data := p.data + [data[0]]);
      AbsorbData(q, data[1..], rest, atEnd);
      assert p.data + data == q.data + data[1..];
    }
  }

  lemma AbsorbDataLine(p: Pending, line: string)
    ensures Absorb(p, "data: " + line) == p.(data := p.data + [line])
  {
    hide TrimSpace;
    var s := "data: " + line;
    assert "data:" <= s && s[5..] == " " + line;
  }

  lemma TrimLeading(s: string)
    ensures TrimSpace(" " + s) == TrimSpace(s)
  {
    assert (" " + s)[1..] == s;
  }

  lemma AbsorbName(name: string)
    requires TrimSpace(name) == name
    ensures Absorb(NOTHING, "event: " + name) == Pending([], name)
  {
    hide TrimSpace;
    TrimLeading(name);
    var s := "event: " + name;
    assert "event:" <= s && s[6..] == " " + name;
    assert s[0] != 'd';
  }

  lemma FrameIsRead(f: Frame, rest: seq<string>, atEnd: bool)
    requires Writable(f)
    ensures Frames(NOTHING, FrameLines(f) + rest, atEnd) == [f] + Frames(NOTHING, rest, atEnd)
  {
    hide Absorb, TrimSpace, Split, DataLines, Join;
    var head, data := "event: " + f.name, DataLines(Split(f.payload));
    var lines := FrameLines(f) + rest;
    var tail := data + ([""] + rest);
    assert lines[0] == head && lines[1..] == tail;
    AbsorbName(f.name);
    AbsorbData(Pending([], f.name), Split(f.payload), [""] + rest, atEnd);
    assert [] + Split(f.payload) == Split(f.payload);
    JoinSplit(f.payload);
    assert ([""] + rest)[1..] == rest;
  }

  lemma {:induction false} LinesAreRead(frames: seq<Frame>, atEnd: bool)
    requires forall i :: 0 <= i < |frames| ==> Writable(frames[i])
    ensures Frames(NOTHING, EncodeLines(frames), atEnd) == frames
    decreases |frames|
  {
    hide FrameLines, Writable;
    if frames != [] {
      FrameIsRead(frames[0], EncodeLines(frames[1..]), atEnd);
      LinesAreRead(frames[1..], atEnd);
    }
  }

  // A line the scanner returns unchanged.
  predicate Clean(line: string) {
    '\r' !in line && '\n' !in line && !(BOM <= line)
  }

  predicate AllClean(lines: seq<string>) {
    forall i :: 0 <= i < |lines| ==> Clean(lines[i])
  }

  lemma {:induction false} DataLinesClean(data: seq<string>)
    requires NewlineFree(data) && forall i :: 0 <= i < |data| ==> '\r' !in data[i]
    ensures AllClean(DataLines(data))
    decreases |data|
  {
    if data != [] {
      DataLinesClean(data[1..]);
      assert ("data: " + data[0])[0] == 'd';
    }
  }

  lemma {:induction false} JoinHolds(lines: seq<string>, c: char)
    requires c !in Join(lines)
    ensures forall i :: 0 <= i < |lines| ==> c !in lines[i]
    decreases |lines|
  {
    if |lines| > 1 {
      var tail := Join(lines[1..]);
      assert forall x :: x in tail ==> x in Join(lines);
      JoinHolds(lines[1..], c);
    }
  }

  lemma FrameLinesClean(f: Frame)
    requires Writable(f)
    ensures AllClean(FrameLines(f))
  {
    hide TrimSpace, Split, Join, DataLines;
    JoinSplit(f.payload);
    JoinHolds(Split(f.payload), '\r');
    DataLinesClean(Split(f.payload));
    assert ("event: " + f.name)[0] == 'e';
  }

  lemma {:induction false} EncodeLinesClean(frames: seq<Frame>)
    requires forall i :: 0 <= i < |frames| ==> Writable(frames[i])
    ensures AllClean(EncodeLines(frames))
    decreases |frames|
  {
    hide Writable, Clean, FrameLines;
    if frames != [] {
      FrameLinesClean(frames[0]);
      EncodeLinesClean(frames[1..]);
    }
  }

  lemma CleanLinesAreScanned(lines: seq<string>)
    requires AllClean(lines)
    ensures StreamLines(Join(lines + [""])) == lines
  {
    hide Split, Join;
    var all := lines + [""];
    assert NewlineFree(all);
    SplitJoin(all);
    assert all[..|lines|] == lines;
    assert DropReturns(lines) == lines;
  }

  // What is written is read back: every payload, with all its lines, under its
  // event name and in order, whether or not the stream ended well.
  lemma StreamRoundTrip(frames: seq<Frame>, atEnd: bool)
    requires forall i :: 0 <= i < |frames| ==> Writable(frames[i])
    ensures Frames(NOTHING, StreamLines(EncodeStream(frames)), atEnd) == frames
  {
    hide Writable, Frames, AllClean, StreamLines, EncodeLines;
    EncodeLinesClean(frames);
    CleanLinesAreScanned(EncodeLines(frames));
    LinesAreRead(frames, atEnd);
  }

  // ---------- other ways to end lines ----------

  function WithReturns(lines: seq<string>): (r: seq<string>)
    ensures |r| == |lines| && forall i :: 0 <= i < |r| ==> r[i] == lines[i] + "\r"
  {
    seq(|lines|, i requires 0 <= i < |lines| => lines[i] + "\r")
  }

  // A carriage return before the newline belongs to the line end.
  lemma ReturnsAreDropped(lines: seq<string>)
    requires AllClean(lines)
    ensures StreamLines(Join(WithReturns(lines) + [""])) == lines
  {
    hide Split, Join;
    var all := WithReturns(lines) + [""];
    assert forall i :: 0 <= i < |lines| ==> '\n' !in lines[i];
    assert NewlineFree(all);
    SplitJoin(all);
    assert all[..|lines|] == WithReturns(lines);
    forall i | 0 <= i < |lines| ensures DropReturn(WithReturns(lines)[i]) == lines[i] {
      assert (lines[i] + "\r")[..|lines[i]|] == lines[i];
    }
    assert DropReturns(WithReturns(lines)) == lines;
  }

  // The last line may lack its newline.
  lemma LastLineIsScanned(lines: seq<string>)
    requires AllClean(lines) && lines != [] && lines[|lines| - 1] != ""
    ensures StreamLines(Join(lines)) == lines
  {
    hide Split, Join, DropReturns, DropReturn, StreamLines, ScanLines;
    assert NewlineFree(lines);
    SplitJoin(lines);
    NothingDropped(lines);
    NothingBehind(Join(lines), lines);
    NoMark(Join(lines), lines);
  }

  lemma NothingBehind(stream: string, lines: seq<string>)
    requires Split(stream) == lines != [] && lines[|lines| - 1] != ""
    ensures ScanLines(stream) == DropReturns(lines)
  {
    hide Split, DropReturns;
  }

  lemma NoMark(stream: string, lines: seq<string>)
    requires ScanLines(stream) == lines != [] && Clean(lines[0])
    ensures StreamLines(stream) == lines
  {
    hide ScanLines;
    assert lines == [lines[0]] + lines[1..];
  }

  lemma NothingDropped(lines: seq<string>)
    requires AllClean(lines)
    ensures DropReturns(lines) == lines
  {
    forall i | 0 <= i < |lines| ensures DropReturn(lines[i]) == lines[i] {
      assert Clean(lines[i]);
    }
  }

  // A byte order mark at the beginning is skipped, once.
  lemma MarkIsSkipped(lines: seq<string>)
    requires AllClean(lines) && lines != []
    ensures StreamLines(BOM + Join(lines + [""])) == lines
  {
    hide Split, Join, ScanLines;
    var marked := [BOM + lines[0]] + lines[1..];
    MarkedJoin(lines + [""]);
    assert [BOM + (lines + [""])[0]] + (lines + [""])[1..] == marked + [""];
    MarkedIsClean(lines);
    ReturnlessAreScanned(marked);
    assert (BOM + lines[0])[1..] == lines[0];
    assert marked[1..] == lines[1..] && lines == [lines[0]] + lines[1..];
  }

  predicate Returnless(lines: seq<string>) {
    forall i :: 0 <= i < |lines| ==> '\r' !in lines[i] && '\n' !in lines[i]
  }

  lemma MarkedIsClean(lines: seq<string>)
    requires AllClean(lines) && lines != []
    ensures Returnless([BOM + lines[0]] + lines[1..])
  {
  }

  lemma ReturnlessAreScanned(lines: seq<string>)
    requires Returnless(lines)
    ensures ScanLines(Join(lines + [""])) == lines
  {
    hide Split, Join;
    var all := lines + [""];
    assert NewlineFree(all);
    SplitJoin(all);
    assert all[..|lines|] == lines;
    assert DropReturns(lines) == lines;
  }

  lemma MarkedJoin(lines: seq<string>)
    requires lines != []
    ensures BOM + Join(lines) == Join([BOM + lines[0]] + lines[1..])
  {
    if |lines| > 1 {
      assert ([BOM + lines[0]] + lines[1..])[1..] == lines[1..];
    }
  }
}
