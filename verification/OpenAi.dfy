/** The replies of the two OpenAI endpoints. */
module OpenAi {
  import opened Options
  import opened Json
  import opened Sse
  import opened Llm

  // ----- Chat completions -----

  function Parsed(parse: Parser, e: SseEvent): Json {
    OrNull(parse(e.data))
  }

  function Models(parse: Parser): SseEvent -> Option<string> {
    (e: SseEvent) => AsStr(Get(Parsed(parse, e), "model"))
  }

  /** An identifier other than null. */
  function Ids(parse: Parser): SseEvent -> Option<Json> {
    (e: SseEvent) => NotNull(Get(Parsed(parse, e), "id"))
  }

  function NotNull(v: Option<Json>): Option<Json> {
    if v == Some(Null) then None else v
  }

  function Choices(json: Json): seq<Json> {
    match Get(json, "choices")
    case Some(Arr(items)) => items
    case _ => []
  }

  function ChoiceText(choice: Json): string {
    var text := AsStr(Pointer(choice, "delta", "content"));
    if text.Some? then text.value else ""
  }

  function ChoicesText(choices: seq<Json>): string {
    if choices == [] then "" else ChoicesText(choices[..|choices| - 1]) + ChoiceText(choices[|choices| - 1])
  }

  /** The last finish reason other than null. */
  function ChoicesFinish(choices: seq<Json>): Option<Json> {
    if choices == [] then None
    else
      var last := NotNull(Get(choices[|choices| - 1], "finish_reason"));
      if last.Some? then last else ChoicesFinish(choices[..|choices| - 1])
  }

  function Contents(parse: Parser): SseEvent -> string {
    (e: SseEvent) => ChoicesText(Choices(Parsed(parse, e)))
  }

  function Finishes(parse: Parser): SseEvent -> Option<Json> {
    (e: SseEvent) => ChoicesFinish(Choices(Parsed(parse, e)))
  }

  /** The usage object of an event, null included. */
  function Usages(parse: Parser): SseEvent -> Option<Json> {
    (e: SseEvent) => Get(Parsed(parse, e), "usage")
  }

  function Tokens(usage: Option<Json>, key: string): Option<Word64> {
    match usage
    case None => None
    case Some(u) => AsU64(Get(u, key))
  }

  /** What the events so far amount to. */
  datatype Chat = Chat(id: Json, model: Option<string>, text: string, finish: Json,
                       input: Option<Word64>, output: Option<Word64>)

  /** In terms of the whole stream: first id, last model, all text, last finish reason, last usage. */
  function GatherChat(parse: Parser, events: seq<SseEvent>): Chat {
    var usage := Last(events, Usages(parse));
    Chat(OrNull(First(events, Ids(parse))), Last(events, Models(parse)), Texts(events, Contents(parse)),
         OrNull(Last(events, Finishes(parse))), Tokens(usage, "prompt_tokens"), Tokens(usage, "completion_tokens"))
  }

  function ChatBody(c: Chat): Json {
    Obj(map[
      "id" := c.id,
      "model" := StrOrNull(c.model),
      "choices" := Arr([Obj(map[
        "message" := Obj(map["role" := Str("assistant"), "content" := Str(c.text)]),
        "finish_reason" := c.finish])]),
      "usage" := Obj(map["prompt_tokens" := NumberOrNull(c.input), "completion_tokens" := NumberOrNull(c.output)])])
  }

  function ChatReply(parse: Parser, events: seq<SseEvent>): Reply {
    var c := GatherChat(parse, events);
    Reply(ChatBody(c), c.model, c.input, c.output)
  }

  lemma {:induction false} FirstOfMore<T>(events: seq<SseEvent>, e: SseEvent, f: SseEvent -> Option<T>)
    ensures First(events + [e], f) == if First(events, f).Some? then First(events, f) else f(e)
    decreases |events|
  {
    if events == [] {
      assert events + [e] == [e] && [e][1..] == [];
    } else {
      assert (events + [e])[1..] == events[1..] + [e];
      FirstOfMore(events[1..], e, f);
    }
  }

  /** What one event changes. */
  lemma ChatMore(parse: Parser, events: seq<SseEvent>, e: SseEvent, c: Chat)
    requires c == GatherChat(parse, events)
    ensures var json := Parsed(parse, e);
            var model := AsStr(Get(json, "model"));
            var usage := Get(json, "usage");
            var finish := ChoicesFinish(Choices(json));
            GatherChat(parse, events + [e])
            == Chat(
              if c.id != Null then c.id else OrNull(Get(json, "id")),
              if model.Some? then model else c.model,
              c.text + ChoicesText(Choices(json)),
              if finish.Some? then finish.value else c.finish,
              if usage.Some? then AsU64(Get(usage.value, "prompt_tokens")) else c.input,
              if usage.Some? then AsU64(Get(usage.value, "completion_tokens")) else c.output)
  {
    FirstOfMore(events, e, Ids(parse));
    FirstIsNotNull(parse, events);
    LastOfMore(events, e, Models(parse));
    LastOfMore(events, e, Finishes(parse));
    LastOfMore(events, e, Usages(parse));
    TextsOfMore(events, e, Contents(parse));
  }

  lemma {:induction false} FirstIsNotNull(parse: Parser, events: seq<SseEvent>)
    ensures First(events, Ids(parse)) != Some(Null)
    decreases |events|
  {
    if events != [] {
      FirstIsNotNull(parse, events[1..]);
    }
  }

  /** The inner loop over the choices of an event. */
  method TakeChoices(c: Chat, choices: seq<Json>) returns (c': Chat)
    ensures var finish := ChoicesFinish(choices);
            c' == c.(text := c.text + ChoicesText(choices), finish := if finish.Some? then finish.value else c.finish)
  {
    c' := c;
    assert c.text + "" == c.text;
    for i := 0 to |choices|
      invariant var finish := ChoicesFinish(choices[..i]);
                c' == c.(text := c.text + ChoicesText(choices[..i]),
                         finish := if finish.Some? then finish.value else c.finish)
    {
      assert choices[..i + 1][..i] == choices[..i];
      var text := c'.text;
      c' := TakeChoice(c', choices[i]);
      assert c'.text == text + ChoiceText(choices[i])
          == c.text + (ChoicesText(choices[..i]) + ChoiceText(choices[i]));
    }
    assert choices[..|choices|] == choices;
  }

  method TakeChoice(c: Chat, choice: Json) returns (c': Chat)
    ensures var finish := NotNull(Get(choice, "finish_reason"));
            c' == c.(text := c.text + ChoiceText(choice), finish := if finish.Some? then finish.value else c.finish)
  {
    c' := c;
    assert c.text + "" == c.text;
    var delta := Get(choice, "delta");
    if delta.Some? {
      var piece := AsStr(Get(delta.value, "content"));
      if piece.Some? {
        c' := c'.(text := c'.text + piece.value);
      }
    }
    var reason := Get(choice, "finish_reason");
    if reason.Some? && reason.value != Null {
      c' := c'.(finish := reason.value);
    }
  }

  /** The body of the loop over the events. */
  method TakeChunk(parse: Parser, c: Chat, event: SseEvent, ghost before: seq<SseEvent>) returns (c': Chat)
    requires c == GatherChat(parse, before)
    ensures c' == GatherChat(parse, before + [event])
  {
    ChatMore(parse, before, event, c);
    c' := c;
    assert c.text + "" == c.text;
    var parsed := parse(event.data);
    if parsed.None? {
      return;
    }
    var json := parsed.value;
    var model := AsStr(Get(json, "model"));
    if model.Some? {
      c' := c'.(model := model);
    }
    if c'.id == Null {
      var id := Get(json, "id");
      if id.Some? {
        c' := c'.(id := id.value);
      }
    }
    c' := TakeChoices(c', Choices(json));
    var usage := Get(json, "usage");
    if usage.Some? {
      c' := c'.(input := AsU64(Get(usage.value, "prompt_tokens")),
                output := AsU64(Get(usage.value, "completion_tokens")));
    }
  }

  /** `reassemble_openai_chat`. */
  method ReassembleChat(parse: Parser, events: seq<SseEvent>) returns (r: Reply)
    ensures r == ChatReply(parse, events)
  {
    var c := Chat(Null, None, "", Null, None, None);
    for i := 0 to |events|
      invariant c == GatherChat(parse, events[..i])
    {
      c := TakeChunk(parse, c, events[i], events[..i]);
      assert events[..i] + [events[i]] == events[..i + 1];
    }
    assert events[..|events|] == events;
    r := Reply(ChatBody(c), c.model, c.input, c.output);
  }

  lemma {:induction false} FirstIgnores<T>(a: seq<SseEvent>, e: SseEvent, b: seq<SseEvent>, f: SseEvent -> Option<T>)
    requires f(e).None?
    ensures First(a + [e] + b, f) == First(a + b, f)
    decreases |a|
  {
    if a == [] {
      assert (a + [e] + b)[0] == e && (a + [e] + b)[1..] == b && a + b == b;
    } else {
      assert (a + [e] + b)[1..] == a[1..] + [e] + b && (a + b)[1..] == a[1..] + b;
      FirstIgnores(a[1..], e, b, f);
    }
  }

  /** A chunk that does not parse may occur anywhere without a trace. */
  lemma ChatIgnoresNoise(parse: Parser, a: seq<SseEvent>, e: SseEvent, b: seq<SseEvent>)
    requires parse(e.data).None?
    ensures ChatReply(parse, a + [e] + b) == ChatReply(parse, a + b)
  {
    FirstIgnores(a, e, b, Ids(parse));
    LastIgnores(a, e, b, Models(parse));
    LastIgnores(a, e, b, Finishes(parse));
    LastIgnores(a, e, b, Usages(parse));
    TextsIgnores(a, e, b, Contents(parse));
  }

  // ----- Responses -----

  const COMPLETED := "response.completed"

  /** The response object of a completion event: its `response` field, or all of it. */
  function Completed(parse: Parser): SseEvent -> Option<Json> {
    (e: SseEvent) =>
      if e.name != Some(COMPLETED) then None
      else
        match parse(e.data)
        case None => None
        case Some(json) => Some(if Get(json, "response").Some? then Get(json, "response").value else json)
  }

  function ResponseReply(parse: Parser, events: seq<SseEvent>): Reply {
    match First(events, Completed(parse))
    case None => NOTHING
    case Some(r) => Reply(r, AsStr(Get(r, "model")), AsU64(Pointer(r, "usage", "input_tokens")),
                          AsU64(Pointer(r, "usage", "output_tokens")))
  }

  /** `reassemble_openai_responses`. */
  method ReassembleResponses(parse: Parser, events: seq<SseEvent>) returns (r: Reply)
    ensures r == ResponseReply(parse, events)
  {
    for i := 0 to |events|
      invariant First(events[i..], Completed(parse)) == First(events, Completed(parse))
    {
      var event := events[i];
      assert events[i..][0] == event && events[i..][1..] == events[i + 1..];
      if event.name != Some(COMPLETED) {
        continue;
      }
      var parsed := parse(event.data);
      if parsed.None? {
        continue;
      }
      var inner := Get(parsed.value, "response");
      var response := if inner.Some? then inner.value else parsed.value;
      return Reply(response, AsStr(Get(response, "model")), AsU64(Pointer(response, "usage", "input_tokens")),
                   AsU64(Pointer(response, "usage", "output_tokens")));
    }
    return NOTHING;
  }
}
