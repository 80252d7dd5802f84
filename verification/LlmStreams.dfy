/**
 What a provider's stream means, key by key: which JSON values of which events end up in the record. The
 statements are about event names and JSON keys as the providers send them.
 */
module LlmStreams {
  import opened Options
  import opened Bytes
  import opened Json
  import opened Sse
  import opened SseRendering
  import opened Llm
  import opened OpenAi
  import opened LlmReply
  import Utf8

  // ----- The event that decides -----

  lemma {:induction false} LastIs<T>(a: seq<SseEvent>, e: SseEvent, b: seq<SseEvent>, f: SseEvent -> Option<T>)
    requires f(e).Some? && forall i :: 0 <= i < |b| ==> f(b[i]).None?
    ensures Last(a + [e] + b, f) == f(e)
    decreases |b|
  {
    if b == [] {
      assert a + [e] + b == a + [e];
      LastOfMore(a, e, f);
    } else {
      var n := |b| - 1;
      LastIs(a, e, b[..n], f);
      assert a + [e] + b == a + [e] + b[..n] + [b[n]];
      LastOfMore(a + [e] + b[..n], b[n], f);
    }
  }

  lemma {:induction false} FirstIs<T>(a: seq<SseEvent>, e: SseEvent, b: seq<SseEvent>, f: SseEvent -> Option<T>)
    requires f(e).Some? && forall i :: 0 <= i < |a| ==> f(a[i]).None?
    ensures First(a + [e] + b, f) == f(e)
    decreases |a|
  {
    var all := a + [e] + b;
    if a == [] {
      assert all[0] == e;
    } else {
      assert all[0] == a[0] && all[1..] == a[1..] + [e] + b;
      FirstIs(a[1..], e, b, f);
    }
  }

  lemma TextAt(a: seq<SseEvent>, e: SseEvent, b: seq<SseEvent>, f: SseEvent -> string)
    ensures Texts(a + [e] + b, f) == Texts(a, f) + f(e) + Texts(b, f)
  {
    TextsConcat(a + [e], b, f);
    TextsOfMore(a, e, f);
  }

  /** No event has this name. */
  ghost predicate NoneNamed(events: seq<SseEvent>, name: string) {
    forall i :: 0 <= i < |events| ==> events[i].name != Some(name)
  }

  // ----- Anthropic messages -----

  /** The three names that matter. */
  lemma KindNames(e: SseEvent)
    ensures Llm.KindOf(e) == MessageStart <==> e.name == Some("message_start")
    ensures Llm.KindOf(e) == ContentDelta <==> e.name == Some("content_block_delta")
    ensures Llm.KindOf(e) == MessageDelta <==> e.name == Some("message_delta")
  {
  }

  /** The last `message_start` gives the record its identifier, model and input count. */
  lemma StartDecides(parse: Parser, a: seq<SseEvent>, e: SseEvent, b: seq<SseEvent>,
                     json: Json, msg: Json, id: Json, model: string, n: Word64)
    requires e.name == Some("message_start") && NoneNamed(b, "message_start")
    requires parse(e.data) == Some(json) && Get(json, "message") == Some(msg)
    requires Get(msg, "id") == Some(id) && Get(msg, "model") == Some(Str(model))
    requires Pointer(msg, "usage", "input_tokens") == Some(Number(n))
    ensures var m := Gather(parse, a + [e] + b);
            m.id == id && m.model == Some(model) && m.input == Some(n)
  {
    KindNames(e);
    forall i | 0 <= i < |b|
      ensures Started(parse)(b[i]).None?
    {
      KindNames(b[i]);
    }
    LastIs(a, e, b, Started(parse));
  }

  /** A text delta adds its text where it stands; a delta of another type adds nothing. */
  lemma DeltaAdds(parse: Parser, a: seq<SseEvent>, e: SseEvent, b: seq<SseEvent>, json: Json, delta: Json, kind: string, t: string)
    requires e.name == Some("content_block_delta") && parse(e.data) == Some(json) && Get(json, "delta") == Some(delta)
    requires Get(delta, "type") == Some(Str(kind)) && Get(delta, "text") == Some(Str(t))
    ensures Gather(parse, a + [e] + b).text
         == Gather(parse, a).text + (if kind == "text_delta" then t else "") + Gather(parse, b).text
  {
    KindNames(e);
    TextAt(a, e, b, Deltas(parse));
  }

  /** The last `message_delta` gives the output count; the last one with a stop reason gives that. */
  lemma EndDecides(parse: Parser, a: seq<SseEvent>, e: SseEvent, b: seq<SseEvent>, json: Json, reason: Json, n: Word64)
    requires e.name == Some("message_delta") && NoneNamed(b, "message_delta") && parse(e.data) == Some(json)
    requires Pointer(json, "delta", "stop_reason") == Some(reason)
    requires Pointer(json, "usage", "output_tokens") == Some(Number(n))
    ensures var m := Gather(parse, a + [e] + b);
            m.stop == reason && m.output == Some(n)
  {
    KindNames(e);
    forall i | 0 <= i < |b|
      ensures Stopped(parse)(b[i]).None? && Counted(parse)(b[i]).None?
    {
      KindNames(b[i]);
    }
    LastIs(a, e, b, Stopped(parse));
    LastIs(a, e, b, Counted(parse));
  }

  // ----- A whole reply, from its bytes -----

  /** A frame with a name and one line of data. */
  function NamedFrame(name: string, data: string): Frame {
    [NameField(name), DataField(data)]
  }

  /** Frames of one name. */
  function Frames(name: string, datas: seq<string>): seq<Frame> {
    if datas == [] then [] else [NamedFrame(name, datas[0])] + Frames(name, datas[1..])
  }

  function EventsOf(name: string, datas: seq<string>): (r: seq<SseEvent>)
    ensures |r| == |datas| && forall i :: 0 <= i < |r| ==> r[i] == SseEvent(Some(name), datas[i])
  {
    if datas == [] then [] else [SseEvent(Some(name), datas[0])] + EventsOf(name, datas[1..])
  }

  const DELTA := "content_block_delta"

  function Concat(texts: seq<string>): string {
    if texts == [] then "" else texts[0] + Concat(texts[1..])
  }

  ghost predicate IsData(s: string) {
    IsValue(s) && s != "[DONE]"
  }

  lemma NamedFrameReads(name: string, data: string, rest: seq<Frame>)
    requires IsValue(name) && IsData(data)
    ensures WritableFrame(NamedFrame(name, data))
    ensures Expected([NamedFrame(name, data)] + rest) == [SseEvent(Some(name), data)] + Expected(rest)
  {
    TwoFields(name, data, NamedFrame(name, data));
    assert ([NamedFrame(name, data)] + rest)[1..] == rest;
  }

  lemma NamesAreValues()
    ensures IsValue("message_start") && IsValue("content_block_delta") && IsValue("message_delta")
  {
  }

  ghost predicate AllWritable(frames: seq<Frame>) {
    forall i :: 0 <= i < |frames| ==> WritableFrame(frames[i])
  }

  lemma {:induction false} FramesRead(name: string, datas: seq<string>, rest: seq<Frame>)
    requires IsValue(name) && (forall i :: 0 <= i < |datas| ==> IsData(datas[i])) && AllWritable(rest)
    ensures AllWritable(Frames(name, datas) + rest)
    ensures Expected(Frames(name, datas) + rest) == EventsOf(name, datas) + Expected(rest)
    decreases |datas|
  {
    if datas == [] {
      assert Frames(name, datas) + rest == rest && EventsOf(name, datas) + Expected(rest) == Expected(rest);
    } else {
      FramesRead(name, datas[1..], rest);
      FramesStep(name, datas[0], Frames(name, datas[1..]) + rest, EventsOf(name, datas[1..]), Expected(rest));
      assert Frames(name, datas) + rest == [NamedFrame(name, datas[0])] + (Frames(name, datas[1..]) + rest);
    }
  }

  lemma FramesStep(name: string, data: string, more: seq<Frame>, events: seq<SseEvent>, end: seq<SseEvent>)
    requires IsValue(name) && IsData(data) && AllWritable(more) && Expected(more) == events + end
    ensures AllWritable([NamedFrame(name, data)] + more)
    ensures Expected([NamedFrame(name, data)] + more) == [SseEvent(Some(name), data)] + events + end
  {
    OneMoreFrame(name, data, more);
    assert [SseEvent(Some(name), data)] + (events + end) == [SseEvent(Some(name), data)] + events + end;
  }

  lemma OneMoreFrame(name: string, data: string, rest: seq<Frame>)
    requires IsValue(name) && IsData(data) && AllWritable(rest)
    ensures AllWritable([NamedFrame(name, data)] + rest)
    ensures Expected([NamedFrame(name, data)] + rest) == [SseEvent(Some(name), data)] + Expected(rest)
  {
    NamedFrameReads(name, data, rest);
  }

  /** The frames of a reply: its start, its deltas, its end. */
  function ReplyFrames(start: string, deltas: seq<string>, end: string): seq<Frame> {
    [NamedFrame("message_start", start)] + (Frames(DELTA, deltas) + [NamedFrame("message_delta", end)])
  }

  function ReplyEvents(start: string, deltas: seq<string>, end: string): seq<SseEvent> {
    [SseEvent(Some("message_start"), start)] + (EventsOf(DELTA, deltas) + [SseEvent(Some("message_delta"), end)])
  }

  lemma ReplyFramesRead(start: string, deltas: seq<string>, end: string)
    requires IsData(start) && IsData(end) && forall i :: 0 <= i < |deltas| ==> IsData(deltas[i])
    ensures AllWritable(ReplyFrames(start, deltas, end))
    ensures Expected(ReplyFrames(start, deltas, end)) == ReplyEvents(start, deltas, end)
  {
    NamesAreValues();
    var last := NamedFrame("message_delta", end);
    OneMoreFrame("message_delta", end, []);
    assert [last] + [] == [last];
    FramesRead(DELTA, deltas, [last]);
    OneMoreFrame("message_start", start, Frames(DELTA, deltas) + [last]);
  }

  /** The JSON of a text delta. */
  ghost predicate IsTextDelta(json: Option<Json>, t: string) {
    && json.Some? && Pointer(json.value, "delta", "type") == Some(Str("text_delta"))
    && Pointer(json.value, "delta", "text") == Some(Str(t))
  }

  lemma DeltaFirst(parse: Parser, data: string, rest: seq<SseEvent>, t: string)
    requires IsTextDelta(parse(data), t)
    ensures Gather(parse, [SseEvent(Some(DELTA), data)] + rest).text == t + Gather(parse, rest).text
  {
    var e := SseEvent(Some(DELTA), data);
    var json := parse(data).value;
    DeltaAdds(parse, [], e, rest, json, Get(json, "delta").value, "text_delta", t);
    assert [] + [e] + rest == [e] + rest;
    assert "" + t == t;
  }

  lemma {:induction false} DeltasConcat(parse: Parser, deltas: seq<string>, texts: seq<string>)
    requires |deltas| == |texts| && forall i :: 0 <= i < |deltas| ==> IsTextDelta(parse(deltas[i]), texts[i])
    ensures Gather(parse, EventsOf(DELTA, deltas)).text == Concat(texts)
    decreases |deltas|
  {
    if deltas != [] {
      DeltaFirst(parse, deltas[0], EventsOf(DELTA, deltas[1..]), texts[0]);
      DeltasConcat(parse, deltas[1..], texts[1..]);
    }
  }

  /** What the start event of a reply must say. */
  ghost predicate IsStart(json: Option<Json>, id: Json, model: string, n: Word64) {
    && json.Some? && Get(json.value, "message").Some?
    && var msg := Get(json.value, "message").value;
    && Get(msg, "id") == Some(id) && Get(msg, "model") == Some(Str(model))
    && Pointer(msg, "usage", "input_tokens") == Some(Number(n))
  }

  ghost predicate IsEnd(json: Option<Json>, reason: Json, n: Word64) {
    && json.Some? && Pointer(json.value, "delta", "stop_reason") == Some(reason)
    && Pointer(json.value, "usage", "output_tokens") == Some(Number(n))
  }

  lemma ReplyStart(parse: Parser, start: string, deltas: seq<string>, end: string, id: Json, model: string, n: Word64)
    requires IsStart(parse(start), id, model, n)
    ensures var m := Gather(parse, ReplyEvents(start, deltas, end));
            m.id == id && m.model == Some(model) && m.input == Some(n)
  {
    var e := SseEvent(Some("message_start"), start);
    var rest := EventsOf(DELTA, deltas) + [SseEvent(Some("message_delta"), end)];
    assert [] + [e] + rest == ReplyEvents(start, deltas, end);
    StartDecides(parse, [], e, rest, parse(start).value, Get(parse(start).value, "message").value, id, model, n);
  }

  lemma ReplyEnd(parse: Parser, start: string, deltas: seq<string>, end: string, reason: Json, n: Word64)
    requires IsEnd(parse(end), reason, n)
    ensures var m := Gather(parse, ReplyEvents(start, deltas, end));
            m.stop == reason && m.output == Some(n)
  {
    var e := SseEvent(Some("message_delta"), end);
    var front := [SseEvent(Some("message_start"), start)] + EventsOf(DELTA, deltas);
    assert front + [e] + [] == ReplyEvents(start, deltas, end);
    EndDecides(parse, front, e, [], parse(end).value, reason, n);
  }

  lemma ReplyText(parse: Parser, start: string, deltas: seq<string>, end: string, texts: seq<string>)
    requires |deltas| == |texts| && forall i :: 0 <= i < |deltas| ==> IsTextDelta(parse(deltas[i]), texts[i])
    ensures Gather(parse, ReplyEvents(start, deltas, end)).text == Concat(texts)
  {
    var first, last := SseEvent(Some("message_start"), start), SseEvent(Some("message_delta"), end);
    KindNames(first);
    KindNames(last);
    DeltasConcat(parse, deltas, texts);
    OtherAddsNothing(parse, first);
    OtherAddsNothing(parse, last);
    AnthropicTextConcat(parse, [first], EventsOf(DELTA, deltas) + [last]);
    AnthropicTextConcat(parse, EventsOf(DELTA, deltas), [last]);
    assert "" + (Concat(texts) + "") == Concat(texts);
  }

  lemma OtherAddsNothing(parse: Parser, e: SseEvent)
    requires Llm.KindOf(e) != ContentDelta
    ensures Gather(parse, [e]).text == ""
  {
    TextsOfMore([], e, Deltas(parse));
    assert [] + [e] == [e];
  }

  /** The record of a reply holds what the stream said, under the keys of the document sent in one piece. */
  ghost predicate Records(r: Reply, id: Json, model: string, input: Word64, reason: Json, output: Word64, text: string) {
    && r == Reply(r.body, Some(model), Some(input), Some(output))
    && Get(r.body, "id") == Some(id) && Get(r.body, "model") == Some(Str(model)) && Get(r.body, "stop_reason") == Some(reason)
    && Get(r.body, "content") == Some(Arr([Obj(map["type" := Str("text"), "text" := Str(text)])]))
    && Pointer(r.body, "usage", "input_tokens") == Some(Number(input))
    && Pointer(r.body, "usage", "output_tokens") == Some(Number(output))
  }

  lemma MessageRecords(m: Message, r: Reply, model: string, input: Word64, output: Word64)
    requires r == Reply(AnthropicBody(m.id, m.model, m.stop, m.text, m.input, m.output), m.model, m.input, m.output)
    requires m.model == Some(model) && m.input == Some(input) && m.output == Some(output)
    ensures Records(r, m.id, model, input, m.stop, output, m.text)
  {
    AnthropicKeys(m, r.body);
  }

  /**
   A streamed Anthropic reply, from the bytes on the wire to the record: identifier, model and input count of
   its start, stop reason and output count of its end, and the texts of its deltas in order.
   */
  lemma AnthropicStream(start: string, deltas: seq<string>, end: string, texts: seq<string>,
                        id: Json, model: string, input: Word64, reason: Json, output: Word64,
                        contentType: Option<string>, parse: Parser, parseBytes: ByteParser)
    requires IsData(start) && IsData(end) && forall i :: 0 <= i < |deltas| ==> IsData(deltas[i])
    requires IsStart(parse(start), id, model, input) && IsEnd(parse(end), reason, output) && IsStream(contentType)
    requires |deltas| == |texts| && forall i :: 0 <= i < |deltas| ==> IsTextDelta(parse(deltas[i]), texts[i])
    ensures Records(
              ReplyOf("messages", contentType, Utf8.Encode(RenderAll(ReplyFrames(start, deltas, end))), parse, parseBytes),
              id, model, input, reason, output, Concat(texts))
  {
    var events := ReplyEvents(start, deltas, end);
    ReplyFramesRead(start, deltas, end);
    ParseOfRendered(ReplyFrames(start, deltas, end));
    ReplyStart(parse, start, deltas, end, id, model, input);
    ReplyEnd(parse, start, deltas, end, reason, output);
    ReplyText(parse, start, deltas, end, texts);
    MessageRecords(Gather(parse, events), AnthropicReply(parse, events), model, input, output);
  }

  // ----- OpenAI chat completions -----

  /** No chunk among these parses to an object with this key. */
  ghost predicate NoneHas(parse: Parser, events: seq<SseEvent>, key: string) {
    forall i :: 0 <= i < |events| ==> Get(Parsed(parse, events[i]), key).None?
  }

  /** The last chunk with a usage object gives both counts. */
  lemma UsageDecides(parse: Parser, a: seq<SseEvent>, e: SseEvent, b: seq<SseEvent>, json: Json, input: Word64, output: Word64)
    requires parse(e.data) == Some(json) && NoneHas(parse, b, "usage")
    requires Pointer(json, "usage", "prompt_tokens") == Some(Number(input))
    requires Pointer(json, "usage", "completion_tokens") == Some(Number(output))
    ensures var r := StreamedReply("chat_completions", parse, a + [e] + b);
            && r.input == Some(input) && r.output == Some(output)
            && Pointer(r.body, "usage", "prompt_tokens") == Some(Number(input))
            && Pointer(r.body, "usage", "completion_tokens") == Some(Number(output))
  {
    LastIs(a, e, b, Usages(parse));
    ChatKeys(GatherChat(parse, a + [e] + b), ChatBody(GatherChat(parse, a + [e] + b)));
  }

  /** A null usage after it takes both counts away. */
  lemma NullUsageErases(parse: Parser, a: seq<SseEvent>, e: SseEvent, b: seq<SseEvent>, json: Json)
    requires parse(e.data) == Some(json) && NoneHas(parse, b, "usage") && Get(json, "usage") == Some(Null)
    ensures var r := StreamedReply("chat_completions", parse, a + [e] + b);
            r.input == None && r.output == None
  {
    LastIs(a, e, b, Usages(parse));
  }

  /** The last chunk with a model gives the model, the first with an identifier the identifier. */
  lemma ModelDecides(parse: Parser, a: seq<SseEvent>, e: SseEvent, b: seq<SseEvent>, json: Json, model: string)
    requires parse(e.data) == Some(json) && NoneHas(parse, b, "model") && Get(json, "model") == Some(Str(model))
    ensures var r := StreamedReply("chat_completions", parse, a + [e] + b);
            r.model == Some(model) && Get(r.body, "model") == Some(Str(model))
  {
    LastIs(a, e, b, Models(parse));
    ChatKeys(GatherChat(parse, a + [e] + b), ChatBody(GatherChat(parse, a + [e] + b)));
  }

  lemma IdDecides(parse: Parser, a: seq<SseEvent>, e: SseEvent, b: seq<SseEvent>, json: Json, id: Json)
    requires parse(e.data) == Some(json) && NoneHas(parse, a, "id") && Get(json, "id") == Some(id) && id != Null
    ensures Get(StreamedReply("chat_completions", parse, a + [e] + b).body, "id") == Some(id)
  {
    FirstIs(a, e, b, Ids(parse));
    ChatDocument(parse, a + [e] + b);
  }

  /** The text of the assistant's message in the document. */
  function ChatText(r: Reply): Option<string> {
    match Get(r.body, "choices")
    case Some(Arr(choices)) => if |choices| == 1 then AsStr(Pointer(choices[0], "message", "content")) else None
    case _ => None
  }

  lemma ChatTextOf(parse: Parser, events: seq<SseEvent>)
    ensures ChatText(StreamedReply("chat_completions", parse, events)) == Some(GatherChat(parse, events).text)
  {
    ChatDocument(parse, events);
  }

  lemma OneChoice(choice: Json)
    ensures ChoicesText([choice]) == ChoiceText(choice)
    ensures ChoicesFinish([choice]) == NotNull(Get(choice, "finish_reason"))
  {
    assert [choice][..0] == [];
    assert "" + ChoiceText(choice) == ChoiceText(choice);
  }

  /** A chunk with one choice adds its content where it stands. */
  lemma ContentAdds(parse: Parser, a: seq<SseEvent>, e: SseEvent, b: seq<SseEvent>, json: Json, choice: Json, t: string)
    requires parse(e.data) == Some(json) && Get(json, "choices") == Some(Arr([choice]))
    requires Pointer(choice, "delta", "content") == Some(Str(t))
    ensures ChatText(StreamedReply("chat_completions", parse, a + [e] + b))
         == Some(GatherChat(parse, a).text + t + GatherChat(parse, b).text)
  {
    ChatTextOf(parse, a + [e] + b);
    TextAt(a, e, b, Contents(parse));
    OneChoice(choice);
  }

  /** The last chunk whose one choice has a finish reason gives it. */
  lemma FinishDecides(parse: Parser, a: seq<SseEvent>, e: SseEvent, b: seq<SseEvent>, json: Json, choice: Json, reason: Json)
    requires parse(e.data) == Some(json) && Get(json, "choices") == Some(Arr([choice])) && NoneHas(parse, b, "choices")
    requires Get(choice, "finish_reason") == Some(reason) && reason != Null
    ensures GatherChat(parse, a + [e] + b).finish == reason
  {
    OneChoice(choice);
    LastIs(a, e, b, Finishes(parse));
  }

  // ----- OpenAI responses -----

  /** The first completed event that parses is the record, with the counts under its own keys. */
  lemma CompletedDecides(parse: Parser, a: seq<SseEvent>, e: SseEvent, b: seq<SseEvent>,
                         json: Json, response: Json, model: string, input: Word64, output: Word64)
    requires NoneNamed(a, "response.completed") && e.name == Some("response.completed") && parse(e.data) == Some(json)
    requires Get(json, "response") == Some(response) || (Get(json, "response") == None && response == json)
    requires Get(response, "model") == Some(Str(model))
    requires Pointer(response, "usage", "input_tokens") == Some(Number(input))
    requires Pointer(response, "usage", "output_tokens") == Some(Number(output))
    ensures StreamedReply("responses", parse, a + [e] + b) == Reply(response, Some(model), Some(input), Some(output))
  {
    FirstIs(a, e, b, Completed(parse));
  }

  // ----- Which replies are streams -----

  /** A text contains a part exactly when it can be cut around it. */
  lemma {:induction false} ContainsIff(s: string, part: string)
    ensures Contains(s, part) <==> exists i :: CutAround(s, part, i)
    decreases |s|
  {
    if part <= s {
      assert CutAround(s, part, 0);
    } else if s != "" {
      ContainsIff(s[1..], part);
      forall i: nat | CutAround(s, part, i)
        ensures CutAround(s[1..], part, i - 1)
      {
        assert s[..i] + (part + s[i + |part|..]) == s;
        assert i == 0 ==> part <= s;
        assert s[1..][i - 1..i - 1 + |part|] == part;
      }
      forall i: nat | CutAround(s[1..], part, i)
        ensures CutAround(s, part, i + 1)
      {
        assert s[i + 1..i + 1 + |part|] == s[1..][i..i + |part|];
      }
    }
  }

  ghost predicate CutAround(s: string, part: string, i: nat) {
    i + |part| <= |s| && s[i..i + |part|] == part
  }

  /** Any content type around the stream's own is a stream; a missing one is not. */
  lemma StreamTypes(before: string, after: string)
    ensures IsStream(Some(before + "text/event-stream" + after)) && !IsStream(None)
  {
    var part := "text/event-stream";
    ContainsIff(before + part + after, part);
    assert CutAround(before + part + after, part, |before|);
  }
}
