/**
 What the LLM logger records of a provider's reply: the events of a streamed reply are put together
 into the document the provider would have sent in one piece, with its model and token counts. Parsing
 the JSON text of one event is a parameter.
 */
module Llm {
  import opened Options
  import opened Json
  import opened Sse

  type Parser = string -> Option<Json>

  /** The recorded document, the model, and the token counts. */
  datatype Reply = Reply(body: Json, model: Option<string>, input: Option<Word64>, output: Option<Word64>)

  const NOTHING := Reply(Null, None, None, None)

  // ----- Looking through the events -----

  /** The last value that some event yields. */
  function Last<T>(events: seq<SseEvent>, f: SseEvent -> Option<T>): Option<T> {
    if events == [] then None
    else
      var n := |events| - 1;
      if f(events[n]).Some? then f(events[n]) else Last(events[..n], f)
  }

  /** The first value that some event yields. */
  function First<T>(events: seq<SseEvent>, f: SseEvent -> Option<T>): Option<T> {
    if events == [] then None
    else if f(events[0]).Some? then f(events[0])
    else First(events[1..], f)
  }

  /** The texts that the events yield, in order. */
  function Texts(events: seq<SseEvent>, f: SseEvent -> string): string {
    if events == [] then "" else Texts(events[..|events| - 1], f) + f(events[|events| - 1])
  }

  // ----- Anthropic messages -----

  /** The events that matter, by name. */
  datatype Kind = MessageStart | ContentDelta | MessageDelta | Ignored

  function KindOf(e: SseEvent): Kind {
    match (if e.name.Some? then e.name.value else "")
    case "message_start" => MessageStart
    case "content_block_delta" => ContentDelta
    case "message_delta" => MessageDelta
    case _ => Ignored
  }

  /** The JSON of an event of the given kind. */
  function Of(parse: Parser, e: SseEvent, kind: Kind): Option<Json> {
    if KindOf(e) == kind then parse(e.data) else None
  }

  function Started(parse: Parser): SseEvent -> Option<Json> {
    (e: SseEvent) =>
      match Of(parse, e, MessageStart)
      case None => None
      case Some(json) => Get(json, "message")
  }

  function DeltaText(json: Json): string {
    match Get(json, "delta")
    case None => ""
    case Some(delta) =>
      if AsStr(Get(delta, "type")) == Some("text_delta") && AsStr(Get(delta, "text")).Some?
      then AsStr(Get(delta, "text")).value else ""
  }

  function Deltas(parse: Parser): SseEvent -> string {
    (e: SseEvent) =>
      match Of(parse, e, ContentDelta)
      case None => ""
      case Some(json) => DeltaText(json)
  }

  function Stopped(parse: Parser): SseEvent -> Option<Json> {
    (e: SseEvent) =>
      match Of(parse, e, MessageDelta)
      case None => None
      case Some(json) => Pointer(json, "delta", "stop_reason")
  }

  function Counted(parse: Parser): SseEvent -> Option<Option<Word64>> {
    (e: SseEvent) =>
      match Of(parse, e, MessageDelta)
      case None => None
      case Some(json) => Some(AsU64(Pointer(json, "usage", "output_tokens")))
  }

  function Inner<T>(v: Option<Option<T>>): Option<T> {
    if v.Some? then v.value else None
  }

  function AnthropicBody(id: Json, model: Option<string>, stop: Json, text: string,
                         input: Option<Word64>, output: Option<Word64>): Json {
    Obj(map[
      "id" := id,
      "model" := StrOrNull(model),
      "stop_reason" := stop,
      "content" := Arr([Obj(map["type" := Str("text"), "text" := Str(text)])]),
      "usage" := Obj(map["input_tokens" := NumberOrNull(input), "output_tokens" := NumberOrNull(output)])])
  }

  /** Identity, model and input count of the message that started last. */
  function StartFields(start: Option<Json>): (Json, Option<string>, Option<Word64>) {
    match start
    case None => (Null, None, None)
    case Some(msg) => (OrNull(Get(msg, "id")), AsStr(Get(msg, "model")), AsU64(Pointer(msg, "usage", "input_tokens")))
  }

  /** What the events so far amount to. */
  datatype Message = Message(id: Json, model: Option<string>, input: Option<Word64>,
                             stop: Json, output: Option<Word64>, text: string)

  /** In terms of the whole stream: last start, last stop, last count, all text. */
  function Gather(parse: Parser, events: seq<SseEvent>): Message {
    var (id, model, input) := StartFields(Last(events, Started(parse)));
    Message(id, model, input, OrNull(Last(events, Stopped(parse))), Inner(Last(events, Counted(parse))),
            Texts(events, Deltas(parse)))
  }

  function AnthropicReply(parse: Parser, events: seq<SseEvent>): Reply {
    var m := Gather(parse, events);
    Reply(AnthropicBody(m.id, m.model, m.stop, m.text, m.input, m.output), m.model, m.input, m.output)
  }

  lemma LastOfMore<T>(events: seq<SseEvent>, e: SseEvent, f: SseEvent -> Option<T>)
    ensures Last(events + [e], f) == if f(e).Some? then f(e) else Last(events, f)
  {
    assert (events + [e])[..|events|] == events;
  }

  lemma TextsOfMore(events: seq<SseEvent>, e: SseEvent, f: SseEvent -> string)
    ensures Texts(events + [e], f) == Texts(events, f) + f(e)
  {
    assert (events + [e])[..|events|] == events;
  }

  lemma GatherMore(parse: Parser, events: seq<SseEvent>, e: SseEvent, m: Message)
    requires m == Gather(parse, events)
    ensures var start := Started(parse)(e);
            var stop := Stopped(parse)(e);
            var count := Counted(parse)(e);
            Gather(parse, events + [e]) ==
            Message(
              if start.Some? then StartFields(start).0 else m.id,
              if start.Some? then StartFields(start).1 else m.model,
              if start.Some? then StartFields(start).2 else m.input,
              if stop.Some? then stop.value else m.stop,
              if count.Some? then count.value else m.output,
              m.text + Deltas(parse)(e))
  {
    LastOfMore(events, e, Started(parse));
    LastOfMore(events, e, Stopped(parse));
    LastOfMore(events, e, Counted(parse));
    TextsOfMore(events, e, Deltas(parse));
  }

  /** The body of the loop: what one event changes. */
  method TakeEvent(parse: Parser, m: Message, event: SseEvent, ghost before: seq<SseEvent>) returns (m': Message)
    requires m == Gather(parse, before)
    ensures m' == Gather(parse, before + [event])
  {
    GatherMore(parse, before, event, m);
    assert m.text + "" == m.text;
    var parsed := parse(event.data);
    if parsed.None? {
      return m;
    }
    match KindOf(event) {
      case MessageStart => m' := TakeStart(m, parsed.value);
      case ContentDelta => m' := TakeText(m, parsed.value);
      case MessageDelta => m' := TakeEnd(m, parsed.value);
      case Ignored => m' := m;
    }
  }

  method TakeStart(m: Message, json: Json) returns (m': Message)
    ensures var start := Get(json, "message");
            m' == if start.None? then m
                  else m.(id := StartFields(start).0, model := StartFields(start).1, input := StartFields(start).2)
  {
    m' := m;
    var msg := Get(json, "message");
    if msg.Some? {
      m' := m'.(id := OrNull(Get(msg.value, "id")));
      m' := m'.(model := AsStr(Get(msg.value, "model")));
      m' := m'.(input := AsU64(Pointer(msg.value, "usage", "input_tokens")));
    }
  }

  method TakeText(m: Message, json: Json) returns (m': Message)
    ensures m' == m.(text := m.text + DeltaText(json))
  {
    m' := m;
    assert m.text + "" == m.text;
    var delta := Get(json, "delta");
    if delta.Some? {
      if AsStr(Get(delta.value, "type")) == Some("text_delta") {
        var piece := AsStr(Get(delta.value, "text"));
        if piece.Some? {
          m' := m'.(text := m'.text + piece.value);
        }
      }
    }
  }

  method TakeEnd(m: Message, json: Json) returns (m': Message)
    ensures var stop := Pointer(json, "delta", "stop_reason");
            m' == m.(stop := if stop.Some? then stop.value else m.stop,
                     output := AsU64(Pointer(json, "usage", "output_tokens")))
  {
    m' := m;
    var delta := Get(json, "delta");
    if delta.Some? {
      var reason := Get(delta.value, "stop_reason");
      if reason.Some? {
        m' := m'.(stop := reason.value);
      }
    }
    m' := m'.(output := AsU64(Pointer(json, "usage", "output_tokens")));
  }

  /** `reassemble_anthropic_messages`. */
  method ReassembleAnthropic(parse: Parser, events: seq<SseEvent>) returns (r: Reply)
    ensures r == AnthropicReply(parse, events)
  {
    var m := Message(Null, None, None, Null, None, "");
    for i := 0 to |events|
      invariant m == Gather(parse, events[..i])
    {
      m := TakeEvent(parse, m, events[i], events[..i]);
      assert events[..i] + [events[i]] == events[..i + 1];
    }
    assert events[..|events|] == events;
    r := Reply(AnthropicBody(m.id, m.model, m.stop, m.text, m.input, m.output), m.model, m.input, m.output);
  }

  // ----- Noise -----

  lemma {:induction false} LastIgnores<T>(a: seq<SseEvent>, e: SseEvent, b: seq<SseEvent>, f: SseEvent -> Option<T>)
    requires f(e).None?
    ensures Last(a + [e] + b, f) == Last(a + b, f)
    decreases |b|
  {
    if b == [] {
      LastOfMore(a, e, f);
      assert a + [e] + b == a + [e] && a + b == a;
    } else {
      var n := |b| - 1;
      LastIgnores(a, e, b[..n], f);
      assert a + [e] + b == a + [e] + b[..n] + [b[n]] && a + b == a + b[..n] + [b[n]];
      LastOfMore(a + [e] + b[..n], b[n], f);
      LastOfMore(a + b[..n], b[n], f);
    }
  }

  lemma {:induction false} TextsConcat(a: seq<SseEvent>, b: seq<SseEvent>, f: SseEvent -> string)
    ensures Texts(a + b, f) == Texts(a, f) + Texts(b, f)
    decreases |b|
  {
    if b == [] {
      assert a + b == a && Texts(a, f) + "" == Texts(a, f);
    } else {
      var n := |b| - 1;
      TextsConcat(a, b[..n], f);
      assert a + b == a + b[..n] + [b[n]];
      TextsOfMore(a + b[..n], b[n], f);
    }
  }

  lemma TextsIgnores(a: seq<SseEvent>, e: SseEvent, b: seq<SseEvent>, f: SseEvent -> string)
    requires f(e) == ""
    ensures Texts(a + [e] + b, f) == Texts(a + b, f)
  {
    TextsConcat(a + [e], b, f);
    TextsConcat(a, b, f);
    TextsOfMore(a, e, f);
    assert Texts(a, f) + "" == Texts(a, f);
  }

  /** An event that does not parse or has another name may occur anywhere without a trace. */
  lemma AnthropicIgnoresNoise(parse: Parser, a: seq<SseEvent>, e: SseEvent, b: seq<SseEvent>)
    requires parse(e.data).None? || KindOf(e) == Ignored
    ensures AnthropicReply(parse, a + [e] + b) == AnthropicReply(parse, a + b)
  {
    LastIgnores(a, e, b, Started(parse));
    LastIgnores(a, e, b, Stopped(parse));
    LastIgnores(a, e, b, Counted(parse));
    TextsIgnores(a, e, b, Deltas(parse));
  }

  /** The recorded text of a stream in two parts is the text of the parts. */
  lemma AnthropicTextConcat(parse: Parser, a: seq<SseEvent>, b: seq<SseEvent>)
    ensures Gather(parse, a + b).text == Gather(parse, a).text + Gather(parse, b).text
  {
    TextsConcat(a, b, Deltas(parse));
  }
}
