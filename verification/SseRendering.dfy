/** Streams as a provider writes them, and what the parser makes of them. */
module SseRendering {
  import opened Options
  import opened Text
  import opened Sse
  import Utf8

  /** A line of a frame: a comment, an event name, a line of data, the end marker, or a field of another name. */
  datatype Field = Note(text: string) | NameField(text: string) | DataField(text: string) | DoneField | OtherField(text: string)

  /** The lines between two blank lines. */
  type Frame = seq<Field>

  ghost predicate OneLine(s: string) {
    forall i :: 0 <= i < |s| ==> s[i] != '\n'
  }

  /** A field value: one line without white space around it. */
  ghost predicate IsValue(s: string) {
    OneLine(s) && Trim(s) == s
  }

  /** A comment may be any line; the marker is not data. */
  ghost predicate Writable(f: Field) {
    match f
    case Note(text) => OneLine(text) && (text == "" || text[|text| - 1] != '\r')
    case NameField(text) => IsValue(text)
    case DataField(text) => IsValue(text) && text != "[DONE]"
    case DoneField => true
    case OtherField(text) => IsFrameLine(text) && IsLine(text) && !(":" <= text) && !("event:" <= text) && !("data:" <= text)
  }

  ghost predicate WritableFrame(frame: Frame) {
    frame != [] && forall i :: 0 <= i < |frame| ==> Writable(frame[i])
  }

  function LineOf(f: Field): string {
    match f
    case Note(text) => ":" + text
    case NameField(text) => "event:" + (" " + text)
    case DataField(text) => "data:" + (" " + text)
    case DoneField => "data:" + (" " + "[DONE]")
    case OtherField(text) => text
  }

  function FrameLines(frame: Frame): (r: seq<string>)
    ensures |r| == |frame| && forall i :: 0 <= i < |r| ==> r[i] == LineOf(frame[i])
  {
    if frame == [] then [] else [LineOf(frame[0])] + FrameLines(frame[1..])
  }

  function Render(frame: Frame): string {
    JoinLines(FrameLines(frame)) + "\n\n"
  }

  function RenderAll(frames: seq<Frame>): string {
    if frames == [] then "" else Render(frames[0]) + RenderAll(frames[1..])
  }

  /** The last name in a frame. */
  function NameOf(frame: Frame): Option<string> {
    if frame == [] then None
    else
      var f := frame[|frame| - 1];
      if f.NameField? then Some(f.text) else NameOf(frame[..|frame| - 1])
  }

  /** The data lines of a frame. */
  function DataOf(frame: Frame): seq<string> {
    if frame == [] then []
    else
      var f := frame[|frame| - 1];
      DataOf(frame[..|frame| - 1]) + if f.DataField? then [f.text] else []
  }

  /** The events a reader should see: one for each frame with data. */
  function Expected(frames: seq<Frame>): seq<SseEvent> {
    if frames == [] then [] else ExpectedOf(frames[0]) + Expected(frames[1..])
  }

  function ExpectedOf(frame: Frame): seq<SseEvent> {
    if DataOf(frame) == [] then [] else [SseEvent(NameOf(frame), JoinLines(DataOf(frame)))]
  }

  // ----- Lines -----

  /** A line that survives on its own: not empty, no line feed in it, no carriage return at its end. */
  ghost predicate IsLine(s: string) {
    s != "" && OneLine(s) && s[|s| - 1] != '\r'
  }

  lemma {:induction false} NewlineAfter(s: string, rest: string)
    requires OneLine(s)
    ensures FindNewline(s + "\n" + rest) == |s|
    ensures FindNewline(s) == |s|
  {
    var t := s + "\n" + rest;
    assert t[|s|] == '\n';
    assert forall j :: 0 <= j < |s| ==> t[j] == s[j];
  }

  lemma {:induction false} LinesOfJoined(lines: seq<string>)
    requires lines != [] && forall i :: 0 <= i < |lines| ==> IsLine(lines[i])
    ensures LinesOf(JoinLines(lines)) == lines
    decreases |lines|
  {
    assert IsLine(lines[0]);
    if |lines| == 1 {
      NewlineAfter(lines[0], "");
      assert lines == [lines[0]];
    } else {
      var rest := JoinLines(lines[1..]);
      var s := lines[0] + "\n" + rest;
      NewlineAfter(lines[0], rest);
      assert s[..|lines[0]|] == lines[0] && s[|lines[0]| + 1..] == rest;
      LinesOfJoined(lines[1..]);
      assert lines == [lines[0]] + lines[1..];
    }
  }

  /** The joined lines have no blank line in them and neither start nor end with a line feed. */
  ghost predicate Solid(s: string) {
    && s != "" && s[0] != '\n' && s[|s| - 1] != '\n'
    && forall i: nat :: !BreakAt(s, i)
  }

  lemma SolidLine(s: string)
    requires s != "" && OneLine(s)
    ensures Solid(s)
  {
    assert s[0] != '\n' && s[|s| - 1] != '\n';
  }

  lemma SolidJoin(a: string, b: string)
    requires Solid(a) && Solid(b)
    ensures Solid(a + "\n" + b)
  {
    var s := a + "\n" + b;
    forall i: nat
      ensures !BreakAt(s, i)
    {
      assert i + 1 < |a| ==> BreakAt(s, i) == BreakAt(a, i);
      assert i > |a| ==> BreakAt(s, i) == BreakAt(b, i - |a| - 1);
      assert i + 1 == |a| ==> s[i] == a[|a| - 1];
      assert i == |a| ==> i + 1 < |s| && s[i + 1] == b[0];
    }
    assert s[|s| - 1] == b[|b| - 1];
  }

  lemma {:induction false} JoinedIsSolid(lines: seq<string>)
    requires lines != [] && forall i :: 0 <= i < |lines| ==> lines[i] != "" && OneLine(lines[i])
    ensures Solid(JoinLines(lines))
    decreases |lines|
  {
    SolidLine(lines[0]);
    if |lines| > 1 {
      JoinedIsSolid(lines[1..]);
      SolidJoin(lines[0], JoinLines(lines[1..]));
    }
  }

  lemma SolidFrame(s: string)
    requires Solid(s)
    ensures FindBreak(s + "\n\n") == |s|
  {
    var t := s + "\n\n";
    forall j: nat | j < |s|
      ensures !BreakAt(t, j)
    {
      assert j + 1 < |s| ==> BreakAt(t, j) == BreakAt(s, j);
      assert j + 1 == |s| ==> t[j] == s[|s| - 1];
    }
    BreakIs(t, |s|);
  }

  // ----- Trimming a frame -----

  lemma {:induction false} TrimEndOf(a: string, b: string)
    requires TrimEnd(b) != ""
    ensures TrimEnd(a + b) == a + TrimEnd(b)
    decreases |b|
  {
    if b != "" && IsSpace(b[|b| - 1]) {
      assert (a + b)[..|a + b| - 1] == a + b[..|b| - 1];
      TrimEndOf(a, b[..|b| - 1]);
    }
  }

  lemma {:induction false} TrimEndIsPrefix(s: string)
    ensures TrimEnd(s) <= s
    ensures s != "" && !IsSpace(s[0]) ==> TrimEnd(s) != "" && TrimEnd(s)[0] == s[0]
  {
    if s != "" && IsSpace(s[|s| - 1]) {
      TrimEndIsPrefix(s[..|s| - 1]);
    }
  }

  /** Trimming a text that starts with a character other than white space. */
  lemma TrimIsTrimEnd(s: string)
    requires s != "" && !IsSpace(s[0])
    ensures Trim(s) == TrimEnd(s)
  {
  }

  function LastTrimmed(lines: seq<string>): seq<string>
    requires lines != []
  {
    lines[..|lines| - 1] + [TrimEnd(lines[|lines| - 1])]
  }

  lemma LastTrimmedTail(line: string, rest: seq<string>)
    requires rest != []
    ensures LastTrimmed([line] + rest) == [line] + LastTrimmed(rest)
  {
    assert ([line] + rest)[..|rest|] == [line] + rest[..|rest| - 1];
  }

  lemma {:induction false} TrimEndOfJoined(lines: seq<string>)
    requires lines != [] && TrimEnd(lines[|lines| - 1]) != ""
    ensures TrimEnd(JoinLines(lines)) == JoinLines(LastTrimmed(lines))
    ensures TrimEnd(JoinLines(lines)) != ""
    decreases |lines|
  {
    if |lines| == 1 {
      assert LastTrimmed(lines) == [TrimEnd(lines[0])];
    } else {
      var rest := lines[1..];
      assert lines == [lines[0]] + rest;
      TrimEndOfJoined(rest);
      LastTrimmedTail(lines[0], rest);
      TrimEndOf(lines[0] + "\n", JoinLines(rest));
      assert ([lines[0]] + LastTrimmed(rest))[1..] == LastTrimmed(rest);
    }
  }

  /** A line of a frame: one line that does not start with white space. */
  ghost predicate IsFrameLine(s: string) {
    s != "" && OneLine(s) && !IsSpace(s[0])
  }

  lemma {:induction false} TrimEndHasNoSpace(s: string)
    ensures TrimEnd(s) == "" || !IsSpace(TrimEnd(s)[|TrimEnd(s)| - 1])
  {
    if s != "" && IsSpace(s[|s| - 1]) {
      TrimEndHasNoSpace(s[..|s| - 1]);
    }
  }

  lemma TrimEndIsLine(s: string)
    requires IsFrameLine(s)
    ensures IsLine(TrimEnd(s))
  {
    TrimEndIsPrefix(s);
    TrimEndHasNoSpace(s);
    assert IsSpace('\r');
  }

  /** The lines of a frame read are the lines written, but for white space at the very end. */
  lemma LinesOfFrame(lines: seq<string>)
    requires lines != [] && forall i :: 0 <= i < |lines| ==> IsFrameLine(lines[i])
    requires forall i :: 0 <= i < |lines| - 1 ==> IsLine(lines[i])
    ensures LinesOf(Trim(JoinLines(lines))) == LastTrimmed(lines)
    ensures FindBreak(JoinLines(lines) + "\n\n") == |JoinLines(lines)|
  {
    JoinedIsSolid(lines);
    SolidFrame(JoinLines(lines));
    assert JoinLines(lines)[0] == lines[0][0];
    TrimIsTrimEnd(JoinLines(lines));
    TrimEndIsLine(lines[|lines| - 1]);
    TrimEndOfJoined(lines);
    LinesOfJoined(LastTrimmed(lines));
  }

  // ----- Reading a frame -----

  lemma TrimmedEnds(s: string)
    requires Trim(s) == s
    ensures TrimEnd(s) == s
  {
    TrimEndIsPrefix(TrimStart(s));
    TrimStartLength(s);
  }

  lemma {:induction false} TrimStartLength(s: string)
    ensures |TrimStart(s)| <= |s|
    ensures |TrimStart(s)| == |s| ==> TrimStart(s) == s
  {
    if s != "" && IsSpace(s[0]) {
      TrimStartLength(s[1..]);
    }
  }

  /** The value behind a field name, with or without the white space at the end of the line. */
  lemma ValueBehind(name: string, value: string, line: string)
    requires name != "" && !IsSpace(name[|name| - 1]) && Trim(value) == value
    requires line == name + (" " + value) || line == TrimEnd(name + (" " + value))
    ensures name <= line && Trim(line[|name|..]) == value
  {
    TrimSkips(" ", value);
    var whole := name + (" " + value);
    assert whole[|name|..] == " " + value;
    if line != whole {
      assert value == "" by {
        if value != "" {
          ValueStays(name, value);
        }
      }
      assert whole[..|whole| - 1] == name;
      assert line == TrimEnd(name) == name && name[|name|..] == "";
    }
  }

  lemma ValueStays(name: string, value: string)
    requires value != "" && Trim(value) == value
    ensures TrimEnd(name + (" " + value)) == name + (" " + value)
  {
    TrimmedEnds(value);
    TrimEndOf(name + " ", value);
    assert name + " " + value == name + (" " + value);
  }

  function KindOf(f: Field): Kind {
    match f
    case NameField(text) => Name(text)
    case DataField(text) => Data(text)
    case _ => Nothing
  }

  lemma NameLine(text: string, line: string)
    requires Trim(text) == text
    requires line == "event:" + (" " + text) || line == TrimEnd("event:" + (" " + text))
    ensures Classify(line) == Name(text)
  {
    ValueBehind("event:", text, line);
    assert line[0] == "event:"[0] == 'e';
  }

  lemma DataLine(text: string, line: string)
    requires Trim(text) == text
    requires line == "data:" + (" " + text) || line == TrimEnd("data:" + (" " + text))
    ensures Classify(line) == if text == "[DONE]" then Nothing else Data(text)
  {
    ValueBehind("data:", text, line);
    assert line[0] == "data:"[0] == 'd';
  }

  lemma NoteLine(text: string, line: string)
    requires line == ":" + text || line == TrimEnd(":" + text)
    ensures Classify(line) == Nothing
  {
    TrimEndIsPrefix(":" + text);
  }

  lemma Classified(f: Field, line: string)
    requires Writable(f) && (line == LineOf(f) || line == TrimEnd(LineOf(f)))
    ensures Classify(line) == KindOf(f)
  {
    match f
    case Note(text) => NoteLine(text, line);
    case NameField(text) => NameLine(text, line);
    case DataField(text) => DataLine(text, line);
    case DoneField => DoneLine(line);
    case OtherField(text) => OtherLine(text, line);
  }

  lemma OtherLine(text: string, line: string)
    requires !(":" <= text) && !("event:" <= text) && !("data:" <= text) && (line == text || line == TrimEnd(text))
    ensures Classify(line) == Nothing
  {
    TrimEndIsPrefix(text);
    assert line <= text;
  }

  lemma DoneLine(line: string)
    requires line == LineOf(DoneField) || line == TrimEnd(LineOf(DoneField))
    ensures Classify(line) == Nothing
  {
    assert Trim("[DONE]") == "[DONE]";
    DataLine("[DONE]", line);
  }

  lemma LastTrimmedAt(lines: seq<string>, i: nat)
    requires i < |lines|
    ensures LastTrimmed(lines)[i] == if i + 1 < |lines| then lines[i] else TrimEnd(lines[i])
  {
  }

  lemma KindsOfFrame(frame: Frame, kinds: seq<Kind>)
    requires WritableFrame(frame) && kinds == Kinds(LastTrimmed(FrameLines(frame)))
    ensures |kinds| == |frame| && forall i :: 0 <= i < |frame| ==> kinds[i] == KindOf(frame[i])
  {
    forall i | 0 <= i < |frame|
      ensures kinds[i] == KindOf(frame[i])
    {
      LastTrimmedAt(FrameLines(frame), i);
      Classified(frame[i], LastTrimmed(FrameLines(frame))[i]);
    }
  }

  lemma {:induction false} AddFrame(frame: Frame, kinds: seq<Kind>)
    requires |kinds| == |frame| && forall i :: 0 <= i < |frame| ==> kinds[i] == KindOf(frame[i])
    ensures AddAll(NO_FIELDS, kinds) == Fields(NameOf(frame), DataOf(frame))
    decreases |frame|
  {
    if frame != [] {
      var n := |frame| - 1;
      AddFrame(frame[..n], kinds[..n]);
      assert DataOf(frame[..n]) + [] == DataOf(frame[..n]);
    }
  }

  /** The line of a field is fit for a frame. */
  lemma ValueLine(name: string, value: string)
    requires IsFrameLine(name) && IsValue(value)
    ensures IsFrameLine(name + (" " + value)) && IsLine(name + (" " + value))
  {
    TrimmedEnds(value);
    TrimEndHasNoSpace(value);
  }

  lemma LineShape(f: Field)
    requires Writable(f)
    ensures IsFrameLine(LineOf(f)) && IsLine(LineOf(f))
  {
    match f
    case Note(text) =>
    case NameField(text) => ValueLine("event:", text);
    case DataField(text) => ValueLine("data:", text);
    case DoneField => assert Trim("[DONE]") == "[DONE]"; ValueLine("data:", "[DONE]");
    case OtherField(text) =>
  }

  lemma LinesShape(frame: Frame, lines: seq<string>)
    requires WritableFrame(frame) && lines == FrameLines(frame)
    ensures forall i :: 0 <= i < |lines| ==> IsFrameLine(lines[i]) && IsLine(lines[i])
  {
    forall i | 0 <= i < |lines|
      ensures IsFrameLine(lines[i]) && IsLine(lines[i])
    {
      LineShape(frame[i]);
    }
  }

  lemma FrameIsRead(frame: Frame)
    requires WritableFrame(frame)
    ensures FrameEvents(JoinLines(FrameLines(frame))) == ExpectedOf(frame)
    ensures FindBreak(Render(frame)) == |Render(frame)| - 2
  {
    var kinds := Kinds(LastTrimmed(FrameLines(frame)));
    LinesShape(frame, FrameLines(frame));
    LinesOfFrame(FrameLines(frame));
    KindsOfFrame(frame, kinds);
    AddFrame(frame, kinds);
  }

  lemma RenderedFrame(frame: Frame)
    requires WritableFrame(frame)
    ensures Events(Render(frame)) == ExpectedOf(frame) && EndsFrame(Render(frame))
  {
    var s := Render(frame);
    FrameIsRead(frame);
    FirstFrame(FrameEvents, s, |s| - 2);
    assert s[..|s| - 2] == JoinLines(FrameLines(frame)) && s[|s| - 2 + 2..] == "";
    FramesIgnoreNewlines();
    OnlyFrame(FrameEvents, "");
  }

  lemma {:induction false} RenderedFrames(frames: seq<Frame>)
    requires forall i :: 0 <= i < |frames| ==> WritableFrame(frames[i])
    ensures Events(RenderAll(frames)) == Expected(frames)
    decreases |frames|
  {
    FramesIgnoreNewlines();
    if frames == [] {
      OnlyFrame(FrameEvents, "");
    } else {
      RenderedFrame(frames[0]);
      TextConcat(FrameEvents, Render(frames[0]), RenderAll(frames[1..]));
      RenderedFrames(frames[1..]);
    }
  }

  /**
   Whatever frames a provider writes, with names, data, comments and end markers in any order, `parse_sse`
   returns exactly one event for each frame with data, in order, with its last name and all of its data.
   */
  lemma ParseOfRendered(frames: seq<Frame>)
    requires forall i :: 0 <= i < |frames| ==> WritableFrame(frames[i])
    ensures Events(Utf8.Lossy(Utf8.Encode(RenderAll(frames)))) == Expected(frames)
  {
    Utf8.DecodeEncode(RenderAll(frames));
    RenderedFrames(frames);
  }
}
