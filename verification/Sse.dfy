/**
 Server-sent events as the LLM logger reads them out of a streamed response body: frames between blank
 lines, each with an optional event name and its data lines.
 */
module Sse {
  import opened Options
  import opened Bytes
  import opened Text
  import Utf8

  datatype SseEvent = SseEvent(name: Option<string>, data: string)

  // ----- Frames -----

  predicate BreakAt(s: string, i: nat) {
    i + 1 < |s| && s[i] == '\n' && s[i + 1] == '\n'
  }

  /** The first blank line, or the length of the text when there is none. */
  function FindBreak(s: string): (i: nat)
    ensures i <= |s| && (i < |s| ==> BreakAt(s, i))
    ensures forall j: nat :: j < i ==> !BreakAt(s, j)
  {
    if s == "" || BreakAt(s, 0) then 0
    else
      var i := FindBreak(s[1..]);
      assert forall j: nat :: 0 < j < 1 + i ==> BreakAt(s, j) == BreakAt(s[1..], j - 1);
      1 + i
  }

  /** `str::split` at every blank line. */
  function SplitFrames(s: string): seq<string> {
    var i := FindBreak(s);
    if i == |s| then [s] else [s[..i]] + SplitFrames(s[i + 2..])
  }

  // ----- Lines -----

  function FindNewline(s: string): (i: nat)
    ensures i <= |s| && (i < |s| ==> s[i] == '\n')
    ensures forall j :: 0 <= j < i ==> s[j] != '\n'
  {
    if s == "" || s[0] == '\n' then 0 else 1 + FindNewline(s[1..])
  }

  function DropReturn(s: string): string {
    if s != "" && s[|s| - 1] == '\r' then s[..|s| - 1] else s
  }

  /** `str::lines`: a line feed, with one carriage return before it, ends a line. */
  function LinesOf(s: string): seq<string> {
    if s == "" then []
    else
      var i := FindNewline(s);
      if i == |s| then [s] else [DropReturn(s[..i])] + LinesOf(s[i + 1..])
  }

  /** The part behind a prefix. */
  function Behind(prefix: string, s: string): Option<string> {
    if prefix <= s then Some(s[|prefix|..]) else None
  }

  /** What a line contributes: nothing (a comment, the end marker, an unknown field), a name, or data. */
  datatype Kind = Nothing | Name(text: string) | Data(text: string)

  function Classify(line: string): Kind {
    if ":" <= line then Nothing
    else
      match Behind("event:", line)
      case Some(rest) => Name(Trim(rest))
      case None =>
        match Behind("data:", line)
        case Some(rest) => if Trim(rest) == "[DONE]" then Nothing else Data(Trim(rest))
        case None => Nothing
  }

  function Kinds(lines: seq<string>): (r: seq<Kind>)
    ensures |r| == |lines| && forall i :: 0 <= i < |r| ==> r[i] == Classify(lines[i])
  {
    if lines == [] then [] else [Classify(lines[0])] + Kinds(lines[1..])
  }

  /** The fields of a frame: its last name and all of its data. */
  datatype Fields = Fields(name: Option<string>, data: seq<string>)

  function Add(f: Fields, k: Kind): Fields {
    match k
    case Nothing => f
    case Name(text) => f.(name := Some(text))
    case Data(text) => f.(data := f.data + [text])
  }

  function AddAll(f: Fields, kinds: seq<Kind>): Fields {
    if kinds == [] then f else Add(AddAll(f, kinds[..|kinds| - 1]), kinds[|kinds| - 1])
  }

  function JoinLines(lines: seq<string>): string {
    if lines == [] then "" else if |lines| == 1 then lines[0] else lines[0] + "\n" + JoinLines(lines[1..])
  }

  const NO_FIELDS := Fields(None, [])

  /** The event of a frame: a frame without data has none. */
  function FrameEvents(frame: string): seq<SseEvent> {
    var f := AddAll(NO_FIELDS, Kinds(LinesOf(Trim(frame))));
    if f.data == [] then [] else [SseEvent(f.name, JoinLines(f.data))]
  }

  /** How one frame is read. */
  type Reader = string -> seq<SseEvent>

  function ReadAll(read: Reader, frames: seq<string>): seq<SseEvent> {
    if frames == [] then [] else read(frames[0]) + ReadAll(read, frames[1..])
  }

  /** The events of a text whose frames `read` reads. */
  function EventsBy(read: Reader, text: string): seq<SseEvent> {
    ReadAll(read, SplitFrames(text))
  }

  function Events(text: string): seq<SseEvent> {
    EventsBy(FrameEvents, text)
  }

  // ----- The parser -----

  /** The inner loop: the event of one frame. */
  method ParseFrame(frame: string) returns (event: Option<SseEvent>)
    ensures FrameEvents(frame) == if event.Some? then [event.value] else []
  {
    var lines := LinesOf(Trim(frame));
    ghost var kinds := Kinds(lines);
    var name: Option<string> := None;
    var parts: seq<string> := [];
    for i := 0 to |lines|
      invariant Fields(name, parts) == AddAll(NO_FIELDS, kinds[..i])
    {
      var line := lines[i];
      assert kinds[..i + 1][..i] == kinds[..i] && kinds[i] == Classify(line);
      match Classify(line) {
        case Nothing =>
        case Name(text) => name := Some(text);
        case Data(text) => parts := parts + [text];
      }
    }
    assert kinds[..|lines|] == kinds;
    if parts == [] {
      return None;
    }
    return Some(SseEvent(name, JoinLines(parts)));
  }

  lemma {:induction false} ReadAllMore(read: Reader, frames: seq<string>, i: nat)
    requires i < |frames|
    ensures ReadAll(read, frames[..i + 1]) == ReadAll(read, frames[..i]) + read(frames[i])
    decreases i
  {
    if i == 0 {
      assert frames[..1][1..] == [] && frames[..0] == [];
    } else {
      assert frames[..i + 1][1..] == frames[1..][..i] && frames[..i][1..] == frames[1..][..i - 1];
      ReadAllMore(read, frames[1..], i - 1);
    }
  }

  /** `parse_sse`. */
  method ParseSse(body: seq<byte>) returns (events: seq<SseEvent>)
    ensures events == Events(Utf8.Lossy(body))
  {
    var text := Utf8.Lossy(body);
    var frames := SplitFrames(text);
    events := [];
    for i := 0 to |frames|
      invariant events == ReadAll(FrameEvents, frames[..i])
    {
      ReadAllMore(FrameEvents, frames, i);
      var event := ParseFrame(frames[i]);
      if event.Some? {
        events := events + [event.value];
      }
    }
    assert frames[..|frames|] == frames;
  }

  // ----- Concatenation -----

  lemma ReadFirst(read: Reader, frame: string, frames: seq<string>)
    ensures ReadAll(read, [frame] + frames) == read(frame) + ReadAll(read, frames)
  {
    assert ([frame] + frames)[1..] == frames;
  }

  lemma SplitFirst(s: string, i: nat)
    requires i == FindBreak(s) < |s|
    ensures SplitFrames(s) == [s[..i]] + SplitFrames(s[i + 2..])
  {
  }

  lemma FirstFrame(read: Reader, s: string, i: nat)
    requires i == FindBreak(s) < |s|
    ensures EventsBy(read, s) == read(s[..i]) + EventsBy(read, s[i + 2..])
  {
    SplitFirst(s, i);
    ReadFirst(read, s[..i], SplitFrames(s[i + 2..]));
  }

  lemma OnlyFrame(read: Reader, s: string)
    requires FindBreak(s) == |s|
    ensures EventsBy(read, s) == read(s)
  {
    assert SplitFrames(s) == [s];
    assert ReadAll(read, [s][1..]) == [];
  }

  /** Breaks are found where they are. */
  lemma BreakIs(s: string, i: nat)
    requires BreakAt(s, i) && forall j: nat :: j < i ==> !BreakAt(s, j)
    ensures FindBreak(s) == i
  {
  }

  /** A reader that an empty frame and a line feed in front do not disturb. */
  ghost predicate IgnoresNewlines(read: Reader) {
    read("") == [] && forall frame :: read("\n" + frame) == read(frame)
  }

  lemma FramesIgnoreNewlines()
    ensures IgnoresNewlines(FrameEvents)
  {
    forall frame
      ensures FrameEvents("\n" + frame) == FrameEvents(frame)
    {
      TrimSkips("\n", frame);
    }
  }

  lemma LeadingNewlineInFrame(read: Reader, s: string, t: string)
    requires IgnoresNewlines(read) && t == "\n" + s && (s == "" || s[0] != '\n')
    ensures EventsBy(read, t) == EventsBy(read, s)
  {
    var i := FindBreak(s);
    assert forall j: nat :: 0 < j ==> BreakAt(t, j) == BreakAt(s, j - 1);
    if i == |s| {
      assert !BreakAt(t, FindBreak(t));
      OnlyFrame(read, s);
      OnlyFrame(read, t);
    } else {
      BreakIs(t, i + 1);
      assert t[..i + 1] == "\n" + s[..i] && t[i + 3..] == s[i + 2..];
      FirstFrame(read, s, i);
      FirstFrame(read, t, i + 1);
    }
  }

  /** A line feed in front changes nothing. */
  lemma {:induction false} LeadingNewline(read: Reader, s: string)
    requires IgnoresNewlines(read)
    ensures EventsBy(read, "\n" + s) == EventsBy(read, s)
    decreases |s|
  {
    var t := "\n" + s;
    if s != "" && s[0] == '\n' {
      BreakIs(t, 0);
      FirstFrame(read, t, 0);
      assert t[2..] == s[1..] && t[..0] == "";
      LeadingNewline(read, s[1..]);
      assert "\n" + s[1..] == s;
    } else {
      LeadingNewlineInFrame(read, s, t);
    }
  }

  predicate EndsFrame(s: string) {
    |s| >= 2 && BreakAt(s, |s| - 2)
  }

  lemma FirstBreakStays(a: string, b: string, i: nat)
    requires EndsFrame(a) && i == FindBreak(a)
    ensures i + 2 <= |a| && FindBreak(a + b) == i < |a + b|
    ensures (a + b)[..i] == a[..i] && (a + b)[i + 2..] == a[i + 2..] + b
  {
    assert BreakAt(a, |a| - 2);
    assert forall j: nat :: j + 1 < |a| ==> BreakAt(a + b, j) == BreakAt(a, j);
    BreakIs(a + b, i);
  }

  /** The text up to a frame end and the text behind it are read independently. */
  lemma {:induction false} TextConcat(read: Reader, a: string, b: string)
    requires IgnoresNewlines(read) && EndsFrame(a)
    ensures EventsBy(read, a + b) == EventsBy(read, a) + EventsBy(read, b)
    decreases |a|
  {
    var i := FindBreak(a);
    FirstBreakStays(a, b, i);
    FirstFrame(read, a, i);
    FirstFrame(read, a + b, i);
    RestConcat(read, a, i, a[i + 2..], b);
  }

  lemma RestConcat(read: Reader, a: string, i: nat, rest: string, b: string)
    requires IgnoresNewlines(read) && EndsFrame(a) && i + 2 <= |a| && rest == a[i + 2..]
    ensures EventsBy(read, rest + b) == EventsBy(read, rest) + EventsBy(read, b)
    decreases |a|, 0
  {
    if rest == "" {
      assert rest + b == b;
      OnlyFrame(read, "");
    } else if |rest| == 1 {
      assert rest == "\n" == "\n" + "";
      LeadingNewline(read, b);
      LeadingNewline(read, "");
      OnlyFrame(read, "");
    } else {
      assert BreakAt(rest, |rest| - 2);
      TextConcat(read, rest, b);
    }
  }

  // ----- Bytes -----

  lemma {:induction false} LossyEnd(s: seq<byte>)
    requires s != [] && s[|s| - 1] == 10
    ensures Utf8.Lossy(s) != "" && Utf8.Lossy(s)[|Utf8.Lossy(s)| - 1] == '\n'
    decreases |s|
  {
    var p := Utf8.Next(s);
    if p.len == |s| {
      assert |s| == 1;
      assert Utf8.Lossy(s[1..]) == "";
    } else {
      LossyEnd(s[p.len..]);
    }
  }

  /** A body that ends in two line feeds is a text that ends a frame. */
  lemma LossyEndsFrame(s: seq<byte>)
    requires |s| >= 2 && s[|s| - 2] == 10 && s[|s| - 1] == 10
    ensures EndsFrame(Utf8.Lossy(s))
  {
    var front := s[..|s| - 1];
    assert s == front + [10];
    LossyEnd(front);
    Utf8.LossyConcat(front, [10]);
    assert Utf8.Lossy([10]) == "\n" by { Utf8.DecodeAscii([10]); }
  }

  /**
   `parse_sse` of a body cut anywhere behind a blank line is the events of the two pieces in order, so a
   stream may be logged chunk by chunk.
   */
  lemma ParseConcat(a: seq<byte>, b: seq<byte>)
    requires |a| >= 2 && a[|a| - 2] == 10 && a[|a| - 1] == 10
    ensures Events(Utf8.Lossy(a + b)) == Events(Utf8.Lossy(a)) + Events(Utf8.Lossy(b))
  {
    Utf8.LossyConcat(a, b);
    LossyEndsFrame(a);
    FramesIgnoreNewlines();
    TextConcat(FrameEvents, Utf8.Lossy(a), Utf8.Lossy(b));
  }
}
