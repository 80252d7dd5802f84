/** DNS over TCP: messages framed by a two-byte length, answered one by one on the same connection. */
module DnsTcp {
  import opened Options
  import opened Bytes
  import Dns

  /** Bytes a UDP receive into the 4096-byte buffer can deliver. */
  type Datagram = s: seq<byte> | |s| <= 4096

  /** How one query fares: an unknown or denied sender, the upstream's reply, or a failure on the way. */
  datatype Verdict = Blocked | Forwarded(reply: Datagram) | Failed

  function Respond(query: seq<byte>, v: Verdict): Option<seq<byte>> {
    match v
    case Blocked => Some(Dns.Refused(query))
    case Forwarded(reply) => Some(reply)
    case Failed => None
  }

  // ----- Framing -----

  /** A message length fits the prefix. */
  ghost predicate Fits(message: seq<byte>) {
    |message| < 0x1_0000
  }

  function Frame(message: seq<byte>): seq<byte>
    requires Fits(message)
  {
    U16Bytes(|message|) + message
  }

  function Frames(messages: seq<seq<byte>>): seq<byte>
    requires forall i :: 0 <= i < |messages| ==> Fits(messages[i])
  {
    if messages == [] then [] else Frame(messages[0]) + Frames(messages[1..])
  }

  function NonEmpty(messages: seq<seq<byte>>): seq<seq<byte>> {
    if messages == [] then []
    else (if messages[0] == [] then [] else [messages[0]]) + NonEmpty(messages[1..])
  }

  /** What a byte stream carries: the messages and whether it ends between them rather than inside one. */
  datatype Reading = Reading(messages: seq<seq<byte>>, clean: bool)

  /** Empty frames are skipped; a stream that ends inside a length prefix counts as closed. */
  function Read(input: seq<byte>): Reading {
    if |input| < 2 then Reading([], true)
    else
      var n := U16(input[0], input[1]);
      if n == 0 then Read(input[2..])
      else if |input| < 2 + n then Reading([], false)
      else
        var rest := Read(input[2 + n..]);
        Reading([input[2..2 + n]] + rest.messages, rest.clean)
  }

  /** A reading preceded by more messages. */
  function Before(messages: seq<seq<byte>>, r: Reading): Reading {
    Reading(messages + r.messages, r.clean)
  }

  lemma BeforeTwice(a: seq<seq<byte>>, b: seq<seq<byte>>, r: Reading)
    ensures Before(a, Before(b, r)) == Before(a + b, r)
  {
    assert a + (b + r.messages) == (a + b) + r.messages;
  }

  lemma ReadOfFrame(message: seq<byte>, rest: seq<byte>)
    requires Fits(message)
    ensures Read(Frame(message) + rest) == Before(if message == [] then [] else [message], Read(rest))
  {
    var s := Frame(message) + rest;
    var n := |message|;
    assert s[0] == U16Bytes(n)[0] && s[1] == U16Bytes(n)[1];
    assert s[2 + n..] == rest && s[2..2 + n] == message;
    assert [] + Read(rest).messages == Read(rest).messages;
  }

  lemma FramesSplit(messages: seq<seq<byte>>, rest: seq<byte>)
    requires forall i :: 0 <= i < |messages| ==> Fits(messages[i])
    requires messages != []
    ensures Fits(messages[0])
    ensures Frames(messages) + rest == Frame(messages[0]) + (Frames(messages[1..]) + rest)
  {
    assert Fits(messages[0]);
  }

  /** Whatever was framed is read back, message by message, whatever follows it. */
  lemma {:induction false} ReadOfFrames(messages: seq<seq<byte>>, rest: seq<byte>)
    requires forall i :: 0 <= i < |messages| ==> Fits(messages[i])
    ensures Read(Frames(messages) + rest) == Before(NonEmpty(messages), Read(rest))
    decreases |messages|
  {
    if messages == [] {
      assert Frames(messages) + rest == rest;
      assert [] + Read(rest).messages == Read(rest).messages;
    } else {
      FramesSplit(messages, rest);
      ReadOfFrame(messages[0], Frames(messages[1..]) + rest);
      ReadOfFrames(messages[1..], rest);
      BeforeTwice(if messages[0] == [] then [] else [messages[0]], NonEmpty(messages[1..]), Read(rest));
    }
  }

  /** Every message read fits its prefix and is not empty. */
  lemma {:induction false} ReadFits(input: seq<byte>)
    ensures forall i :: 0 <= i < |Read(input).messages| ==> Fits(Read(input).messages[i]) && Read(input).messages[i] != []
    decreases |input|
  {
    if |input| >= 2 {
      var n := U16(input[0], input[1]);
      if n == 0 {
        ReadFits(input[2..]);
      } else if |input| >= 2 + n {
        ReadFits(input[2 + n..]);
      }
    }
  }

  // ----- A connection -----

  /** The answers up to the first failure, and whether there was none. */
  function Answers(queries: seq<seq<byte>>, verdicts: nat -> Verdict, k: nat): (seq<seq<byte>>, bool) {
    if queries == [] then ([], true)
    else
      match Respond(queries[0], verdicts(k))
      case None => ([], false)
      case Some(answer) =>
        var (more, all) := Answers(queries[1..], verdicts, k + 1);
        ([answer] + more, all)
  }

  /** A stream that ends inside a message is broken there; one that ends inside a length prefix is just closed. */
  lemma ReadOfCut(n: nat, part: seq<byte>)
    requires n < 0x1_0000 && |part| < n
    ensures Read(U16Bytes(n) + part) == Reading([], false)
    ensures |part| < 2 ==> Read(part) == Reading([], true)
  {
    var s := U16Bytes(n) + part;
    assert s[0] == U16Bytes(n)[0] && s[1] == U16Bytes(n)[1];
  }

  /** A blocked query is answered with a refusal of the same question, a forwarded one with the upstream's bytes. */
  lemma AnswerMeans(query: seq<byte>, v: Verdict)
    ensures v.Blocked? && |query| >= 12 ==>
              && Respond(query, v).Some? && |Respond(query, v).value| == |query|
              && Respond(query, v).value[..2] == query[..2]
              && Respond(query, v).value[3] as bv8 & 0x0F == 5 && Respond(query, v).value[2] as bv8 & 0x80 == 0x80
              && Dns.ParseQuestion(Respond(query, v).value) == Dns.ParseQuestion(query)
    ensures v.Blocked? && |query| < 12 ==> Respond(query, v) == Some([])
    ensures v.Forwarded? ==> Respond(query, v) == Some(v.reply)
    ensures Respond(query, v).None? <==> v.Failed?
  {
    if v.Blocked? && |query| >= 12 {
      Dns.RefusalKeepsQuestion(query);
      Dns.RefusalFlags(query, Dns.Refused(query));
    }
  }

  /** Query by query: each has its own answer, in order, up to the first that fails. */
  lemma {:induction false} AnswersInOrder(queries: seq<seq<byte>>, verdicts: nat -> Verdict, k: nat, i: nat)
    requires i < |queries|
    ensures var (answers, all) := Answers(queries, verdicts, k);
            && |answers| <= |queries| && (all <==> |answers| == |queries|)
            && (i < |answers| ==> Respond(queries[i], verdicts(k + i)) == Some(answers[i]))
            && (i == |answers| ==> verdicts(k + i).Failed?)
    decreases |queries|
  {
    if Respond(queries[0], verdicts(k)).Some? && |queries| > 1 {
      AnswersInOrder(queries[1..], verdicts, k + 1, if i == 0 then 0 else i - 1);
    }
  }

  /** No answer outgrows the two-byte prefix. */
  lemma AnswerFits(query: seq<byte>, v: Verdict)
    requires Fits(query) && Respond(query, v).Some?
    ensures Fits(Respond(query, v).value)
  {
    Dns.RefusalKeepsQuestion(query);
  }

  lemma {:induction false} AnswersFit(queries: seq<seq<byte>>, verdicts: nat -> Verdict, k: nat)
    requires forall i :: 0 <= i < |queries| ==> Fits(queries[i])
    ensures var answers := Answers(queries, verdicts, k).0;
            |answers| <= |queries| && forall i :: 0 <= i < |answers| ==> Fits(answers[i])
    decreases |queries|
  {
    if queries != [] && Respond(queries[0], verdicts(k)).Some? {
      AnswerFits(queries[0], verdicts(k));
      AnswersFit(queries[1..], verdicts, k + 1);
    }
  }

  /** `write_dns_message`: the length is cast to 16 bits. */
  function Written(message: seq<byte>): seq<byte> {
    U16Bytes(|message| % 0x1_0000) + message
  }

  function WrittenAll(messages: seq<seq<byte>>): seq<byte> {
    if messages == [] then [] else Written(messages[0]) + WrittenAll(messages[1..])
  }

  lemma WrittenOne(message: seq<byte>)
    requires Fits(message)
    ensures Written(message) == Frame(message)
  {
    assert |message| % 0x1_0000 == |message|;
  }

  /** The cast never truncates, so what is written is a sequence of frames. */
  lemma {:induction false} WrittenIsFramed(messages: seq<seq<byte>>)
    requires forall i :: 0 <= i < |messages| ==> Fits(messages[i])
    ensures WrittenAll(messages) == Frames(messages)
    decreases |messages|
  {
    if messages != [] {
      WrittenOne(messages[0]);
      WrittenIsFramed(messages[1..]);
    }
  }

  /** A reader of the rest of the connection: what it will read, answer and end with. */
  ghost function Session(input: seq<byte>, verdicts: nat -> Verdict, k: nat): (seq<byte>, bool) {
    var r := Read(input);
    var (answers, all) := Answers(r.messages, verdicts, k);
    (WrittenAll(answers), all && r.clean)
  }

  /** A session whose output is preceded by what was already written. */
  ghost function Wrote(output: seq<byte>, rest: (seq<byte>, bool)): (seq<byte>, bool) {
    (output + rest.0, rest.1)
  }

  lemma SessionEnd(input: seq<byte>, verdicts: nat -> Verdict, k: nat, output: seq<byte>)
    requires |input| < 2
    ensures Wrote(output, Session(input, verdicts, k)) == (output, true)
  {
    assert output + [] == output;
  }

  lemma SessionCut(input: seq<byte>, verdicts: nat -> Verdict, k: nat, output: seq<byte>)
    requires |input| >= 2 && |input| < 2 + U16(input[0], input[1])
    ensures Wrote(output, Session(input, verdicts, k)) == (output, false)
  {
    assert output + [] == output;
  }

  lemma SessionStep(input: seq<byte>, verdicts: nat -> Verdict, k: nat, n: nat, output: seq<byte>)
    requires |input| >= 2 && 0 < n == U16(input[0], input[1]) && |input| >= 2 + n
    ensures var response := Respond(input[2..2 + n], verdicts(k));
            Wrote(output, Session(input, verdicts, k))
            == if response.None? then (output, false)
               else Wrote(output + Written(response.value), Session(input[2 + n..], verdicts, k + 1))
  {
    var query := input[2..2 + n];
    var rest := Read(input[2 + n..]);
    var queries := [query] + rest.messages;
    assert queries[1..] == rest.messages;
    var response := Respond(query, verdicts(k));
    if response.Some? {
      var answers := Answers(rest.messages, verdicts, k + 1).0;
      assert ([response.value] + answers)[1..] == answers;
      assert output + (Written(response.value) + WrittenAll(answers))
          == output + Written(response.value) + WrittenAll(answers);
    } else {
      assert output + [] == output;
    }
  }

  /**
   `handle_tcp_dns_connection` over the bytes a client sends before closing; `verdicts` says how the
   k-th message fares.
   */
  method HandleConnection(input: seq<byte>, verdicts: nat -> Verdict) returns (output: seq<byte>, ok: bool)
    ensures (output, ok) == Session(input, verdicts, 0)
  {
    var stream := input;
    var k := 0;
    output := [];
    assert [] + Session(input, verdicts, 0).0 == Session(input, verdicts, 0).0;
    while true
      invariant Session(input, verdicts, 0) == Wrote(output, Session(stream, verdicts, k))
      decreases |stream|
    {
      if |stream| < 2 {
        SessionEnd(stream, verdicts, k, output);
        return output, true;
      }
      var n := U16(stream[0], stream[1]);
      if n == 0 {
        stream := stream[2..];
        continue;
      }
      if |stream| < 2 + n {
        SessionCut(stream, verdicts, k, output);
        return output, false;
      }
      SessionStep(stream, verdicts, k, n, output);
      var response := Respond(stream[2..2 + n], verdicts(k));
      if response.None? {
        return output, false;
      }
      output := output + Written(response.value);
      stream := stream[2 + n..];
      k := k + 1;
    }
  }

  /**
   End to end: a client that frames non-empty queries and reads the connection's output by the same
   framing gets the non-empty answers, in order, up to the first failure.
   */
  lemma ClientReadsAnswers(queries: seq<seq<byte>>, verdicts: nat -> Verdict)
    requires forall i :: 0 <= i < |queries| ==> Fits(queries[i])
    ensures var (answers, all) := Answers(NonEmpty(queries), verdicts, 0);
            var (output, ok) := Session(Frames(queries), verdicts, 0);
            ok == all && Read(output) == Reading(NonEmpty(answers), true)
  {
    ReadOfFrames(queries, []);
    assert Frames(queries) + [] == Frames(queries);
    assert NonEmpty(queries) + [] == NonEmpty(queries);
    ReadFits(Frames(queries));
    var answers := Answers(NonEmpty(queries), verdicts, 0).0;
    AnswersFit(NonEmpty(queries), verdicts, 0);
    WrittenIsFramed(answers);
    ReadOfFrames(answers, []);
    assert Frames(answers) + [] == Frames(answers);
    assert NonEmpty(answers) + [] == NonEmpty(answers);
  }

  /** On any input at all, the output is made of whole frames that hold the answers. */
  lemma OutputIsFramed(input: seq<byte>, verdicts: nat -> Verdict)
    ensures Read(Session(input, verdicts, 0).0)
         == Reading(NonEmpty(Answers(Read(input).messages, verdicts, 0).0), true)
  {
    ReadFits(input);
    var answers := Answers(Read(input).messages, verdicts, 0).0;
    AnswersFit(Read(input).messages, verdicts, 0);
    WrittenIsFramed(answers);
    ReadOfFrames(answers, []);
    assert Frames(answers) + [] == Frames(answers);
    assert NonEmpty(answers) + [] == NonEmpty(answers);
  }
}
