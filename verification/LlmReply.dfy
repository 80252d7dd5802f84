/** `process_response`: from the body of a reply, streamed or not, to what is recorded of it. */
module LlmReply {
  import opened Options
  import opened Bytes
  import opened Json
  import opened Sse
  import opened SseRendering
  import opened Llm
  import opened OpenAi
  import Text
  import Utf8

  type ByteParser = seq<byte> -> Option<Json>

  predicate Contains(s: string, part: string) {
    part <= s || (s != "" && Contains(s[1..], part))
  }

  function FirstOf(a: Option<Json>, b: Option<Json>): Option<Json> {
    if a.Some? then a else b
  }

  /** The reply of a document sent in one piece, in either provider's vocabulary. */
  function PlainReply(json: Json): Reply {
    Reply(json, AsStr(Get(json, "model")),
          AsU64(FirstOf(Pointer(json, "usage", "input_tokens"), Pointer(json, "usage", "prompt_tokens"))),
          AsU64(FirstOf(Pointer(json, "usage", "output_tokens"), Pointer(json, "usage", "completion_tokens"))))
  }

  function StreamedReply(endpoint: string, parse: Parser, events: seq<SseEvent>): Reply {
    match endpoint
    case "messages" => AnthropicReply(parse, events)
    case "chat_completions" => ChatReply(parse, events)
    case "responses" => ResponseReply(parse, events)
    case _ => NOTHING
  }

  predicate IsStream(contentType: Option<string>) {
    contentType.Some? && Contains(contentType.value, "text/event-stream")
  }

  function ReplyOf(endpoint: string, contentType: Option<string>, body: seq<byte>,
                   parse: Parser, parseBytes: ByteParser): Reply {
    if IsStream(contentType) then StreamedReply(endpoint, parse, Events(Utf8.Lossy(body)))
    else PlainReply(OrNull(parseBytes(body)))
  }

  method ProcessResponse(endpoint: string, contentType: Option<string>, body: seq<byte>,
                         parse: Parser, parseBytes: ByteParser) returns (r: Reply)
    ensures r == ReplyOf(endpoint, contentType, body, parse, parseBytes)
  {
    if IsStream(contentType) {
      var events := ParseSse(body);
      match endpoint {
        case "messages" => r := ReassembleAnthropic(parse, events);
        case "chat_completions" => r := ReassembleChat(parse, events);
        case "responses" => r := ReassembleResponses(parse, events);
        case _ => r := NOTHING;
      }
    } else {
      r := PlainReply(OrNull(parseBytes(body)));
    }
  }

  /** A stream of an endpoint that is none of the three gives an empty record. */
  lemma OtherEndpoints(endpoint: string, contentType: Option<string>, body: seq<byte>,
                       parse: Parser, parseBytes: ByteParser)
    requires IsStream(contentType) && endpoint !in ["messages", "chat_completions", "responses"]
    ensures ReplyOf(endpoint, contentType, body, parse, parseBytes) == Reply(Null, None, None, None)
  {
  }

  // ----- Reading a reassembled document back -----

  lemma AnthropicKeys(m: Message, body: Json)
    requires body == AnthropicBody(m.id, m.model, m.stop, m.text, m.input, m.output)
    ensures Get(body, "model") == Some(StrOrNull(m.model))
    ensures Pointer(body, "usage", "input_tokens") == Some(NumberOrNull(m.input))
    ensures Pointer(body, "usage", "output_tokens") == Some(NumberOrNull(m.output))
  {
    assert "model"[0] != "usage"[0];
  }

  /** The document put together from a stream, taken as if sent in one piece, gives the same reply. */
  lemma AnthropicReadsBack(parse: Parser, events: seq<SseEvent>)
    ensures PlainReply(AnthropicReply(parse, events).body) == AnthropicReply(parse, events)
  {
    var m := Gather(parse, events);
    AnthropicKeys(m, AnthropicReply(parse, events).body);
    Written(m.model, m.input);
    Written(m.model, m.output);
  }

  /** The document holds the start's identifier, the last stop reason, and one text block: all deltas in order. */
  lemma AnthropicDocument(parse: Parser, events: seq<SseEvent>)
    ensures var body := AnthropicReply(parse, events).body;
            && Get(body, "id") == Some(StartFields(Last(events, Started(parse))).0)
            && Get(body, "stop_reason") == Some(OrNull(Last(events, Stopped(parse))))
            && Get(body, "content").Some? && Get(body, "content").value.Arr?
            && |Get(body, "content").value.items| == 1
            && var block := Get(body, "content").value.items[0];
            && AsStr(Get(block, "type")) == Some("text")
            && AsStr(Get(block, "text")) == Some(Texts(events, Deltas(parse)))
  {
  }

  /** The document holds the first identifier and one choice: all text in order and the last finish reason. */
  lemma ChatDocument(parse: Parser, events: seq<SseEvent>)
    ensures var body := ChatReply(parse, events).body;
            && Get(body, "id") == Some(OrNull(First(events, Ids(parse))))
            && Get(body, "choices").Some? && Get(body, "choices").value.Arr?
            && |Get(body, "choices").value.items| == 1
            && var choice := Get(body, "choices").value.items[0];
            && Get(choice, "finish_reason") == Some(OrNull(Last(events, Finishes(parse))))
            && AsStr(Pointer(choice, "message", "role")) == Some("assistant")
            && AsStr(Pointer(choice, "message", "content")) == Some(Texts(events, Contents(parse)))
  {
  }

  lemma ChatKeys(c: Chat, body: Json)
    requires body == ChatBody(c)
    ensures Get(body, "model") == Some(StrOrNull(c.model))
    ensures Pointer(body, "usage", "prompt_tokens") == Some(NumberOrNull(c.input))
    ensures Pointer(body, "usage", "completion_tokens") == Some(NumberOrNull(c.output))
    ensures Pointer(body, "usage", "input_tokens").None? && Pointer(body, "usage", "output_tokens").None?
  {
    assert "model"[0] != "usage"[0];
  }

  lemma ChatReadsBack(parse: Parser, events: seq<SseEvent>)
    ensures PlainReply(ChatReply(parse, events).body) == ChatReply(parse, events)
  {
    var c := GatherChat(parse, events);
    ChatKeys(c, ChatReply(parse, events).body);
    Written(c.model, c.input);
    Written(c.model, c.output);
  }

  /** No count under the other vocabulary's key is picked up instead of a missing one. */
  ghost predicate OwnVocabulary(json: Json) {
    && (Pointer(json, "usage", "input_tokens").Some? || AsU64(Pointer(json, "usage", "prompt_tokens")).None?)
    && (Pointer(json, "usage", "output_tokens").Some? || AsU64(Pointer(json, "usage", "completion_tokens")).None?)
  }

  // ----- From the bytes on the wire -----

  /** A frame without its comments and end markers. */
  function Stripped(frame: Frame): Frame {
    if frame == [] then []
    else
      var f := frame[|frame| - 1];
      Stripped(frame[..|frame| - 1]) + if f.NameField? || f.DataField? then [f] else []
  }

  lemma {:induction false} StrippedReads(frame: Frame)
    requires forall i :: 0 <= i < |frame| ==> Writable(frame[i])
    ensures NameOf(Stripped(frame)) == NameOf(frame) && DataOf(Stripped(frame)) == DataOf(frame)
    ensures forall i :: 0 <= i < |Stripped(frame)| ==> Writable(Stripped(frame)[i])
    decreases |frame|
  {
    if frame != [] {
      var n := |frame| - 1;
      StrippedReads(frame[..n]);
      if frame[n].NameField? || frame[n].DataField? {
        assert Stripped(frame)[..|Stripped(frame)| - 1] == Stripped(frame[..n]);
      } else {
        assert Stripped(frame) == Stripped(frame[..n]);
      }
    }
  }

  /** The frames with data, without their comments and end markers. */
  function Essential(frames: seq<Frame>): seq<Frame> {
    if frames == [] then []
    else (if DataOf(frames[0]) == [] then [] else [Stripped(frames[0])]) + Essential(frames[1..])
  }

  lemma {:induction false} EssentialReads(frames: seq<Frame>)
    requires forall i :: 0 <= i < |frames| ==> WritableFrame(frames[i])
    ensures Expected(Essential(frames)) == Expected(frames)
    ensures forall i :: 0 <= i < |Essential(frames)| ==> WritableFrame(Essential(frames)[i])
    decreases |frames|
  {
    if frames != [] {
      EssentialReads(frames[1..]);
      StrippedReads(frames[0]);
      if DataOf(frames[0]) == [] {
        assert Essential(frames) == Essential(frames[1..]);
      } else {
        assert Stripped(frames[0]) != [];
        assert Essential(frames)[1..] == Essential(frames[1..]);
      }
    }
  }

  /**
   What is recorded of a stream depends only on the names and data in it: comments and end markers,
   wherever the provider puts them, change nothing.
   */
  lemma OnlyDataMatters(frames: seq<Frame>, endpoint: string, contentType: Option<string>,
                        parse: Parser, parseBytes: ByteParser)
    requires forall i :: 0 <= i < |frames| ==> WritableFrame(frames[i])
    requires IsStream(contentType)
    ensures ReplyOf(endpoint, contentType, Utf8.Encode(RenderAll(frames)), parse, parseBytes)
         == StreamedReply(endpoint, parse, Expected(frames))
         == ReplyOf(endpoint, contentType, Utf8.Encode(RenderAll(Essential(frames))), parse, parseBytes)
  {
    ParseOfRendered(frames);
    EssentialReads(frames);
    ParseOfRendered(Essential(frames));
  }

  // ----- The responses endpoint, streamed and in one piece -----

  /** Nothing is picked up under the other vocabulary's keys; without a document there is nothing to pick up. */
  ghost predicate NothingElsewhere(document: Option<Json>) {
    document.Some? ==> OwnVocabulary(document.value)
  }

  /**
   A response streamed, and the same response sent in one piece, are recorded alike exactly when the
   document in the first completed event that parses has no count under the other vocabulary's keys alone.
   */
  lemma ResponsesAgreeIff(body: seq<byte>, whole: seq<byte>, streamType: Option<string>, plainType: Option<string>,
                          parse: Parser, parseBytes: ByteParser)
    requires IsStream(streamType) && !IsStream(plainType)
    requires parseBytes(whole) == First(Events(Utf8.Lossy(body)), Completed(parse))
    ensures ReplyOf("responses", streamType, body, parse, parseBytes)
         == ReplyOf("responses", plainType, whole, parse, parseBytes)
       <==> NothingElsewhere(First(Events(Utf8.Lossy(body)), Completed(parse)))
  {
  }

  /** The same from the frames the provider writes. */
  lemma RenderedResponsesAgreeIff(frames: seq<Frame>, whole: seq<byte>, streamType: Option<string>,
                                  plainType: Option<string>, parse: Parser, parseBytes: ByteParser)
    requires forall i :: 0 <= i < |frames| ==> WritableFrame(frames[i])
    requires IsStream(streamType) && !IsStream(plainType)
    requires parseBytes(whole) == First(Expected(frames), Completed(parse))
    ensures ReplyOf("responses", streamType, Utf8.Encode(RenderAll(frames)), parse, parseBytes)
         == ReplyOf("responses", plainType, whole, parse, parseBytes)
       <==> NothingElsewhere(First(Expected(frames), Completed(parse)))
  {
    ParseOfRendered(frames);
    ResponsesAgreeIff(Utf8.Encode(RenderAll(frames)), whole, streamType, plainType, parse, parseBytes);
  }

  /** A completed response whose only count is a prompt count. */
  function PromptOnly(n: Word64): Json {
    Obj(map["usage" := Obj(map["prompt_tokens" := Number(n)])])
  }

  lemma PromptOnlyKeys(n: Word64)
    ensures Get(PromptOnly(n), "response").None?
    ensures Pointer(PromptOnly(n), "usage", "prompt_tokens") == Some(Number(n))
    ensures Pointer(PromptOnly(n), "usage", "input_tokens").None?
  {
    assert "response"[0] != "usage"[0];
  }

  function CompletedFrame(text: string): Frame {
    [NameField(COMPLETED), DataField(text)]
  }

  lemma CompletedFrameReads(text: string)
    requires IsValue(text) && text != "[DONE]"
    ensures WritableFrame(CompletedFrame(text))
    ensures Expected([CompletedFrame(text)]) == [SseEvent(Some(COMPLETED), text)]
  {
    var frame := CompletedFrame(text);
    assert Text.Trim(COMPLETED) == COMPLETED;
    TwoFields(COMPLETED, text, frame);
    assert Expected([frame][1..]) == [];
  }

  lemma TwoFields(name: string, text: string, frame: Frame)
    requires frame == [NameField(name), DataField(text)]
    ensures NameOf(frame) == Some(name) && DataOf(frame) == [text]
  {
    var front := [NameField(name)];
    assert front[..0] == [] && frame[..1] == front;
    assert NameOf(front) == Some(name) && DataOf(front) == [];
    assert DataOf(frame) == DataOf(front) + [text];
  }

  lemma PromptOnlyStreamed(n: Word64, text: string, parse: Parser)
    requires parse(text) == Some(PromptOnly(n))
    ensures ResponseReply(parse, [SseEvent(Some(COMPLETED), text)]).input == None
  {
    var e := SseEvent(Some(COMPLETED), text);
    PromptOnlyKeys(n);
    assert Completed(parse)(e) == Some(PromptOnly(n));
    assert First([e], Completed(parse)) == Completed(parse)(e);
  }

  /** It is recorded without its count when streamed, and with it when sent in one piece. */
  lemma ResponsesMayDiffer(n: Word64, text: string, whole: seq<byte>, streamType: Option<string>,
                           plainType: Option<string>, parse: Parser, parseBytes: ByteParser)
    requires IsValue(text) && text != "[DONE]" && parse(text) == Some(PromptOnly(n)) == parseBytes(whole)
    requires IsStream(streamType) && !IsStream(plainType)
    ensures ReplyOf("responses", streamType, Utf8.Encode(RenderAll([CompletedFrame(text)])), parse, parseBytes).input == None
    ensures ReplyOf("responses", plainType, whole, parse, parseBytes).input == Some(n)
  {
    CompletedFrameReads(text);
    ParseOfRendered([CompletedFrame(text)]);
    PromptOnlyStreamed(n, text, parse);
    PromptOnlyKeys(n);
  }

  /** The recorded text of a body cut behind a blank line is the text of the two pieces. */
  lemma TextOfPieces(parse: Parser, a: seq<byte>, b: seq<byte>)
    requires |a| >= 2 && a[|a| - 2] == 10 && a[|a| - 1] == 10
    ensures Gather(parse, Events(Utf8.Lossy(a + b))).text
         == Gather(parse, Events(Utf8.Lossy(a))).text + Gather(parse, Events(Utf8.Lossy(b))).text
    ensures GatherChat(parse, Events(Utf8.Lossy(a + b))).text
         == GatherChat(parse, Events(Utf8.Lossy(a))).text + GatherChat(parse, Events(Utf8.Lossy(b))).text
  {
    ParseConcat(a, b);
    TextsConcat(Events(Utf8.Lossy(a)), Events(Utf8.Lossy(b)), Deltas(parse));
    TextsConcat(Events(Utf8.Lossy(a)), Events(Utf8.Lossy(b)), Contents(parse));
  }
}
