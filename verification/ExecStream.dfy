/**
 Streaming execution in the guest agent: one task pumps the child's stdout to the client, one its
 stderr, one feeds the client's input to the child, and the main task waits for the first two and
 the child before it reports the exit code. They share one channel of 32 messages.
 */
module ExecStream {
  import opened Options
  import opened Bytes

  const CHUNK_SIZE: nat := 4096
  const CAPACITY: nat := 32

  datatype Output = Chunk(from: Stream, data: seq<byte>) | ExitCode(code: int) | Failure

  datatype Stream = Stdout | Stderr

  datatype Input = Start | StdinData(data: seq<byte>) | CloseStdin(really: bool) | Empty

  /** What the client sends and the child writes over the whole session. */
  datatype Session = Session(input: seq<Input>, stdout: seq<byte>, stderr: seq<byte>) {
    function Total(from: Stream): seq<byte> {
      if from.Stdout? then stdout else stderr
    }
  }

  datatype Ending = AtEof | ReadFailed | ClientGone

  /** A pump has read `read` bytes of its stream so far. */
  datatype PumpStage = Idle | Reading | Sending(chunk: seq<byte>) | Ended(why: Ending)
  datatype Pump = Pump(stage: PumpStage, read: nat)

  datatype Feeder = Waiting | Receiving | Writing(rest: seq<byte>) | Over

  datatype Main = AwaitStart | JoinStdout | JoinStderr | WaitChild | SendLast(last: Output) | Done

  datatype State = State(
    main: Main, out: Pump, err: Pump, feeder: Feeder,
    taken: nat,            // messages received from the client
    written: seq<byte>,    // bytes given to the child's stdin
    channel: seq<Output>,  // messages on their way to the client
    gone: bool,            // the client has stopped receiving
    log: seq<Output>,      // messages ever put on the channel
    got: seq<Output>)      // messages the client has received
  {
    function PumpOf(from: Stream): Pump {
      if from.Stdout? then out else err
    }

    function WithPump(from: Stream, p: Pump): State {
      if from.Stdout? then this.(out := p) else this.(err := p)
    }
  }

  const INITIAL: State :=
    State(AwaitStart, Pump(Idle, 0), Pump(Idle, 0), Waiting, 0, [], [], false, [], [])

  datatype Step =
    | Begin(ok: bool)                  // the first message arrives, or the stream fails; the child is spawned, or not
    | Read(from: Stream, n: nat) | Eof(from: Stream) | ReadError(from: Stream)
    | SendChunk(from: Stream)
    | Receive | InputEnds
    | WriteSome(n: nat) | WriteError
    | Joined                           // the pump main waits for has ended
    | ChildExits(code: int)
    | SendFinal
    | ClientReceives | ClientLeaves

  /** The channel can take a message, or will refuse it at once. */
  predicate CanSend(s: State) {
    s.gone || |s.channel| < CAPACITY
  }

  ghost predicate Enabled(x: Session, s: State, step: Step) {
    match step
    case Begin(_) => s.main == AwaitStart
    case Read(f, n) => s.PumpOf(f).stage == Reading && 1 <= n <= CHUNK_SIZE && s.PumpOf(f).read + n <= |x.Total(f)|
    case Eof(f) => s.PumpOf(f).stage == Reading && s.PumpOf(f).read == |x.Total(f)|
    case ReadError(f) => s.PumpOf(f).stage == Reading
    case SendChunk(f) => s.PumpOf(f).stage.Sending? && CanSend(s)
    case Receive => s.feeder == Receiving && s.taken < |x.input|
    case InputEnds => s.feeder == Receiving
    case WriteSome(n) => s.feeder.Writing? && n <= |s.feeder.rest|
    case WriteError => s.feeder.Writing?
    case Joined => (s.main == JoinStdout && s.out.stage.Ended?) || (s.main == JoinStderr && s.err.stage.Ended?)
    case ChildExits(_) => s.main == WaitChild
    case SendFinal => s.main.SendLast? && CanSend(s)
    case ClientReceives => !s.gone && s.channel != []
    case ClientLeaves => !s.gone
  }

  /** A send: it fails when the client is gone. */
  function Sent(s: State, m: Output): State {
    if s.gone then s else s.(channel := s.channel + [m], log := s.log + [m])
  }

  function Begun(x: Session, s: State, ok: bool): State {
    if |x.input| == 0 then s.(main := if ok then Done else SendLast(Failure))
    else if x.input[0] != Start then s.(main := SendLast(Failure), taken := 1)
    else if !ok then s.(main := SendLast(Failure), taken := 1)
    else s.(main := JoinStdout, out := Pump(Reading, 0), err := Pump(Reading, 0), feeder := Receiving, taken := 1)
  }

  function After(x: Session, s: State, step: Step): State
    requires step.Read? ==> s.PumpOf(step.from).read + step.n <= |x.Total(step.from)|
    requires step.SendChunk? ==> s.PumpOf(step.from).stage.Sending?
    requires step.Receive? ==> s.taken < |x.input|
    requires step.WriteSome? ==> s.feeder.Writing? && step.n <= |s.feeder.rest|
    requires step.SendFinal? ==> s.main.SendLast?
    requires step.ClientReceives? ==> s.channel != []
  {
    match step
    case Begin(ok) => Begun(x, s, ok)
    case Read(f, n) =>
      var p := s.PumpOf(f);
      s.WithPump(f, Pump(Sending(x.Total(f)[p.read..p.read + n]), p.read + n))
    case Eof(f) => s.WithPump(f, s.PumpOf(f).(stage := Ended(AtEof)))
    case ReadError(f) => s.WithPump(f, s.PumpOf(f).(stage := Ended(ReadFailed)))
    case SendChunk(f) =>
      var p := s.PumpOf(f);
      Sent(s, Chunk(f, p.stage.chunk)).WithPump(f, p.(stage := if s.gone then Ended(ClientGone) else Reading))
    case Receive =>
      var m := x.input[s.taken];
      s.(taken := s.taken + 1, feeder := if m.StdinData? then Writing(m.data) else Over)
    case InputEnds => s.(feeder := Over)
    case WriteSome(n) =>
      var rest := s.feeder.rest;
      s.(written := s.written + rest[..n], feeder := if n == |rest| then Receiving else Writing(rest[n..]))
    case WriteError => s.(feeder := Over)
    case Joined => s.(main := if s.main == JoinStdout then JoinStderr else WaitChild)
    case ChildExits(code) => s.(main := SendLast(ExitCode(code)), feeder := Over)
    case SendFinal => Sent(s, s.main.last).(main := Done)
    case ClientReceives => s.(channel := s.channel[1..], got := s.got + [s.channel[0]])
    case ClientLeaves => s.(gone := true, channel := [])
  }

  ghost predicate Runs(x: Session, s0: State, steps: seq<Step>, s: State)
    decreases |steps|
  {
    if steps == [] then s == s0
    else Enabled(x, s0, steps[0]) && Runs(x, After(x, s0, steps[0]), steps[1..], s)
  }

  ghost predicate Reachable(x: Session, s: State) {
    exists steps :: Runs(x, INITIAL, steps, s)
  }

  // ----- What the client can see -----

  /** The bytes of one stream among a sequence of messages, in order. */
  function Payload(ms: seq<Output>, from: Stream): seq<byte> {
    if ms == [] then []
    else
      var m := ms[|ms| - 1];
      Payload(ms[..|ms| - 1], from) + if m.Chunk? && m.from == from then m.data else []
  }

  lemma PayloadOfAppend(ms: seq<Output>, m: Output, from: Stream)
    ensures Payload(ms + [m], from) == Payload(ms, from) + if m.Chunk? && m.from == from then m.data else []
  {
    assert (ms + [m])[..|ms|] == ms;
  }

  lemma {:induction false} PayloadOfPrefix(a: seq<Output>, b: seq<Output>, from: Stream)
    requires a <= b
    ensures Payload(a, from) <= Payload(b, from)
    decreases |b|
  {
    if a != b {
      assert a <= b[..|b| - 1];
      PayloadOfPrefix(a, b[..|b| - 1], from);
    } else {
      assert a == b;
    }
  }

  /** The payloads of the leading `StdinData` messages. */
  function Stdin(ms: seq<Input>): seq<byte> {
    if ms == [] || !ms[0].StdinData? then [] else ms[0].data + Stdin(ms[1..])
  }

  // ----- The invariant -----

  /** The channel never overflows, and the client receives what was sent, in order. */
  ghost predicate Delivery(s: State) {
    && |s.channel| <= CAPACITY
    && (if s.gone then s.got <= s.log else s.log == s.got + s.channel)
  }

  ghost predicate PumpOk(total: seq<byte>, p: Pump, sent: seq<byte>, gone: bool) {
    && p.read <= |total|
    && match p.stage
       case Idle => sent == [] && p.read == 0
       case Reading => sent == total[..p.read]
       case Sending(chunk) => sent + chunk == total[..p.read]
       case Ended(AtEof) => sent == total
       case Ended(ReadFailed) => sent == total[..p.read]
       case Ended(ClientGone) => sent <= total && gone
  }

  ghost predicate Pumps(x: Session, s: State) {
    && PumpOk(x.stdout, s.out, Payload(s.log, Stdout), s.gone)
    && PumpOk(x.stderr, s.err, Payload(s.log, Stderr), s.gone)
  }

  ghost predicate AllChunks(ms: seq<Output>) {
    forall i :: 0 <= i < |ms| ==> ms[i].Chunk?
  }

  /** Main reports last: until it is done only chunks are sent, and it ends after both pumps. */
  ghost predicate Order(s: State) {
    && (s.main.AwaitStart? ==> s.out.stage.Idle? && s.err.stage.Idle? && s.log == [])
    && (s.main.JoinStderr? || s.main.WaitChild? ==> s.out.stage.Ended?)
    && (s.main.WaitChild? ==> s.err.stage.Ended?)
    && (s.main.SendLast? || s.main.Done? ==> Quiet(s.out) && Quiet(s.err))
    && (s.main.SendLast? ==> !s.main.last.Chunk? && (s.main.last.ExitCode? ==> s.out.stage.Ended? && s.err.stage.Ended?))
    && (if s.main.Done? && s.log != [] && !s.log[|s.log| - 1].Chunk?
        then AllChunks(s.log[..|s.log| - 1]) && (s.log[|s.log| - 1].ExitCode? ==> s.out.stage.Ended? && s.err.stage.Ended?)
        else AllChunks(s.log))
  }

  ghost predicate Quiet(p: Pump) {
    p.stage.Idle? || p.stage.Ended?
  }

  ghost predicate AllData(ms: seq<Input>) {
    forall i :: 0 <= i < |ms| ==> ms[i].StdinData?
  }

  /** The child has been given, in order, the data received so far, short of what is being written. */
  ghost predicate Feeding(x: Session, s: State) {
    && s.taken <= |x.input|
    && (s.main.AwaitStart? ==> s.feeder.Waiting?)
    && (s.main.JoinStdout? || s.main.JoinStderr? || s.main.WaitChild? ==> !s.feeder.Waiting?)
    && (!s.feeder.Waiting? ==> 1 <= |x.input| && x.input[0] == Start)
    && match s.feeder
       case Waiting => s.written == []
       case Receiving => 1 <= s.taken && AllData(x.input[1..s.taken]) && s.written == Stdin(x.input[1..s.taken])
       case Writing(rest) => 1 <= s.taken && AllData(x.input[1..s.taken]) && s.written + rest == Stdin(x.input[1..s.taken])
       case Over => s.written <= Stdin(x.input[1..])
  }

  /** Once the exit code is sent, both pumps have ended, and not because the client was gone. */
  ghost predicate Reported(s: State) {
    s.log != [] && s.log[|s.log| - 1].ExitCode? ==> s.main.Done? && EndedByItself(s.out) && EndedByItself(s.err)
  }

  ghost predicate EndedByItself(p: Pump) {
    p.stage.Ended? && p.stage.why != ClientGone
  }

  /** A session that is over while the client is there has told it how, unless it never had a message. */
  ghost predicate Told(x: Session, s: State) {
    s.main.Done? && !s.gone ==> |x.input| == 0 || (s.log != [] && !s.log[|s.log| - 1].Chunk?)
  }

  ghost predicate Inv(x: Session, s: State) {
    Delivery(s) && Pumps(x, s) && Order(s) && Reported(s) && Told(x, s) && Feeding(x, s)
  }

  lemma {:induction false} StdinOfAppend(ms: seq<Input>, m: Input)
    requires AllData(ms)
    ensures Stdin(ms + [m]) == Stdin(ms) + if m.StdinData? then m.data else []
  {
    if ms == [] {
      assert ms + [m] == [m] && [m][1..] == [];
    } else {
      assert (ms + [m])[1..] == ms[1..] + [m];
      StdinOfAppend(ms[1..], m);
    }
  }

  lemma {:induction false} StdinOfPrefix(ms: seq<Input>, k: nat)
    requires k <= |ms| && AllData(ms[..k])
    ensures Stdin(ms[..k]) <= Stdin(ms)
  {
    if k > 0 {
      assert ms[..k][0] == ms[0] && ms[..k][1..] == ms[1..][..k - 1];
      StdinOfPrefix(ms[1..], k - 1);
    }
  }

  lemma DeliveryStep(x: Session, s: State, step: Step)
    requires Delivery(s) && Enabled(x, s, step)
    ensures Delivery(After(x, s, step))
  {
  }

  /** A step that touches neither the pumps nor the log. */
  lemma PumpsQuiet(x: Session, s: State, s': State)
    requires Pumps(x, s) && s'.out == s.out && s'.err == s.err && s'.log == s.log && (s.gone ==> s'.gone)
    ensures Pumps(x, s')
  {
  }

  lemma PumpsMove(x: Session, s: State, f: Stream, p: Pump)
    requires Pumps(x, s) && PumpOk(x.Total(f), p, Payload(s.log, f), s.gone)
    ensures Pumps(x, s.WithPump(f, p))
  {
  }

  lemma PumpsRead(x: Session, s: State, f: Stream, n: nat)
    requires Pumps(x, s) && Enabled(x, s, Read(f, n))
    ensures Pumps(x, After(x, s, Read(f, n)))
  {
    var p, total := s.PumpOf(f), x.Total(f);
    assert PumpOk(total, p, Payload(s.log, f), s.gone);
    assert total[..p.read] + total[p.read..p.read + n] == total[..p.read + n];
    PumpsMove(x, s, f, Pump(Sending(total[p.read..p.read + n]), p.read + n));
  }

  lemma PumpsSend(x: Session, s: State, f: Stream)
    requires Pumps(x, s) && Enabled(x, s, SendChunk(f))
    ensures Pumps(x, After(x, s, SendChunk(f)))
  {
    var p, total, sent := s.PumpOf(f), x.Total(f), Payload(s.log, f);
    assert PumpOk(total, p, sent, s.gone);
    if s.gone {
      assert sent <= sent + p.stage.chunk == total[..p.read];
      PumpsMove(x, s, f, p.(stage := Ended(ClientGone)));
    } else {
      PumpsLog(x, s, f, s.log + [Chunk(f, p.stage.chunk)]);
    }
  }

  lemma PumpsLog(x: Session, s: State, f: Stream, log': seq<Output>)
    requires Pumps(x, s) && s.PumpOf(f).stage.Sending? && log' == s.log + [Chunk(f, s.PumpOf(f).stage.chunk)]
    ensures PumpOk(x.Total(f), s.PumpOf(f).(stage := Reading), Payload(log', f), s.gone)
    ensures forall g: Stream :: g != f ==> PumpOk(x.Total(g), s.PumpOf(g), Payload(log', g), s.gone)
  {
    PayloadOfAppend(s.log, Chunk(f, s.PumpOf(f).stage.chunk), Stdout);
    PayloadOfAppend(s.log, Chunk(f, s.PumpOf(f).stage.chunk), Stderr);
    forall g: Stream | g != f ensures PumpOk(x.Total(g), s.PumpOf(g), Payload(log', g), s.gone) {
      match g case Stdout => case Stderr =>
    }
  }

  lemma PumpsBegin(x: Session, s: State, ok: bool)
    requires Pumps(x, s) && s.out.stage.Idle? && s.err.stage.Idle?
    ensures Pumps(x, Begun(x, s, ok))
  {
  }

  lemma PumpsStep(x: Session, s: State, step: Step)
    requires Pumps(x, s) && Order(s) && Enabled(x, s, step)
    ensures Pumps(x, After(x, s, step))
  {
    match step
    case Begin(ok) => PumpsBegin(x, s, ok);
    case Read(f, n) => PumpsRead(x, s, f, n);
    case Eof(f) => PumpsMove(x, s, f, s.PumpOf(f).(stage := Ended(AtEof)));
    case ReadError(f) => PumpsMove(x, s, f, s.PumpOf(f).(stage := Ended(ReadFailed)));
    case SendChunk(f) => PumpsSend(x, s, f);
    case SendFinal =>
      PayloadOfAppend(s.log, s.main.last, Stdout);
      PayloadOfAppend(s.log, s.main.last, Stderr);
    case _ => PumpsQuiet(x, s, After(x, s, step));
  }

  lemma OrderStep(x: Session, s: State, step: Step)
    requires Order(s) && Enabled(x, s, step)
    ensures Order(After(x, s, step))
  {
  }

  /** The exit code goes out while the client is there, so no pump has ended for want of one. */
  lemma ReportedStep(x: Session, s: State, step: Step)
    requires Pumps(x, s) && Order(s) && Reported(s) && Enabled(x, s, step)
    ensures Reported(After(x, s, step))
  {
  }

  lemma ToldStep(x: Session, s: State, step: Step)
    requires Order(s) && Told(x, s) && Enabled(x, s, step)
    ensures Told(x, After(x, s, step))
  {
  }

  /** However the feeder stops, the child has a prefix of the leading data. */
  lemma FeedingEnds(x: Session, s: State)
    requires Feeding(x, s) && !s.feeder.Waiting?
    ensures 1 <= |x.input| && s.written <= Stdin(x.input[1..])
  {
    if !s.feeder.Over? {
      assert x.input[1..][..s.taken - 1] == x.input[1..s.taken];
      StdinOfPrefix(x.input[1..], s.taken - 1);
    }
  }

  lemma FeedingReceives(x: Session, s: State)
    requires Feeding(x, s) && Enabled(x, s, Receive)
    ensures Feeding(x, After(x, s, Receive))
  {
    FeedingEnds(x, s);
    var m := x.input[s.taken];
    assert x.input[1..s.taken + 1] == x.input[1..s.taken] + [m];
    StdinOfAppend(x.input[1..s.taken], m);
  }

  lemma FeedingWrites(x: Session, s: State, n: nat)
    requires Feeding(x, s) && Enabled(x, s, WriteSome(n))
    ensures Feeding(x, After(x, s, WriteSome(n)))
  {
    var rest := s.feeder.rest;
    assert rest[..n] + rest[n..] == rest;
    assert (s.written + rest[..n]) + rest[n..] == s.written + rest;
  }

  lemma FeedingBegins(x: Session, s: State, ok: bool)
    requires Feeding(x, s) && s.main.AwaitStart?
    ensures Feeding(x, Begun(x, s, ok))
  {
    assert x.input != [] ==> Stdin(x.input[1..1]) == [];
  }

  lemma FeedingStep(x: Session, s: State, step: Step)
    requires Feeding(x, s) && Order(s) && Enabled(x, s, step)
    ensures Feeding(x, After(x, s, step))
  {
    match step
    case Receive => FeedingReceives(x, s);
    case WriteSome(n) => FeedingWrites(x, s, n);
    case InputEnds => FeedingEnds(x, s);
    case WriteError => FeedingEnds(x, s);
    case ChildExits(_) => FeedingEnds(x, s);
    case Begin(ok) => FeedingBegins(x, s, ok);
    case _ =>
  }

  lemma InvStep(x: Session, s: State, step: Step, s': State)
    requires Inv(x, s) && Enabled(x, s, step) && s' == After(x, s, step)
    ensures Inv(x, s')
  {
    DeliveryStep(x, s, step);
    PumpsStep(x, s, step);
    OrderStep(x, s, step);
    ReportedStep(x, s, step);
    ToldStep(x, s, step);
    FeedingStep(x, s, step);
  }

  lemma {:induction false} RunKeepsInv(x: Session, s0: State, steps: seq<Step>, s: State)
    requires Inv(x, s0) && Runs(x, s0, steps, s)
    ensures Inv(x, s)
    decreases |steps|
  {
    if steps != [] {
      InvStep(x, s0, steps[0], After(x, s0, steps[0]));
      RunKeepsInv(x, After(x, s0, steps[0]), steps[1..], s);
    }
  }

  lemma ReachableInv(x: Session, s: State)
    requires Reachable(x, s)
    ensures Inv(x, s)
  {
    var steps :| Runs(x, INITIAL, steps, s);
    RunKeepsInv(x, INITIAL, steps, s);
  }

  // ----- What the messages report -----

  /** Exit code `k` is about to be sent, or has been. */
  ghost predicate HasCode(s: State, k: int) {
    s.main == SendLast(ExitCode(k)) || ExitCode(k) in s.log
  }

  lemma CodeStep(x: Session, s: State, step: Step, k: int)
    requires Enabled(x, s, step) && HasCode(After(x, s, step), k)
    ensures HasCode(s, k) || step == ChildExits(k)
  {
  }

  lemma {:induction false} CodeWasReal(x: Session, s0: State, steps: seq<Step>, s: State, k: int)
    requires Runs(x, s0, steps, s) && HasCode(s, k)
    ensures HasCode(s0, k) || ChildExits(k) in steps
    decreases |steps|
  {
    if steps != [] {
      var s1 := After(x, s0, steps[0]);
      CodeWasReal(x, s1, steps[1..], s, k);
      if HasCode(s1, k) {
        CodeStep(x, s0, steps[0], k);
      }
    }
  }

  /** The exit code that is sent, and the one the client receives, is the code the child exited with. */
  lemma ExitCodeIsReal(x: Session, steps: seq<Step>, s: State, k: int)
    requires Runs(x, INITIAL, steps, s) && (ExitCode(k) in s.log || ExitCode(k) in s.got)
    ensures ChildExits(k) in steps
  {
    ReachableInv(x, s);
    assert s.got <= s.log;
    CodeWasReal(x, INITIAL, steps, s, k);
  }

  /** The session cannot begin: the input fails or starts with another message, or the child cannot be spawned. */
  ghost predicate CannotBegin(x: Session, step: Step) {
    step.Begin? && if |x.input| == 0 then !step.ok else x.input[0] != Start || !step.ok
  }

  ghost predicate HasFailure(s: State) {
    s.main == SendLast(Failure) || Failure in s.log
  }

  lemma FailureStep(x: Session, s: State, step: Step)
    requires Enabled(x, s, step) && HasFailure(After(x, s, step))
    ensures HasFailure(s) || CannotBegin(x, step)
  {
  }

  lemma {:induction false} FailureWasReal(x: Session, s0: State, steps: seq<Step>, s: State)
    requires Runs(x, s0, steps, s) && HasFailure(s)
    ensures HasFailure(s0) || exists step :: step in steps && CannotBegin(x, step)
    decreases |steps|
  {
    if steps != [] {
      var s1 := After(x, s0, steps[0]);
      FailureWasReal(x, s1, steps[1..], s);
      if HasFailure(s1) {
        FailureStep(x, s0, steps[0]);
      }
    }
  }

  /** A failure is reported only when the session could not begin. */
  lemma FailureIsReal(x: Session, steps: seq<Step>, s: State)
    requires Runs(x, INITIAL, steps, s) && (Failure in s.log || Failure in s.got)
    ensures exists step :: step in steps && CannotBegin(x, step)
  {
    ReachableInv(x, s);
    assert s.got <= s.log;
    FailureWasReal(x, INITIAL, steps, s);
  }

  lemma ReadFailureStep(x: Session, s: State, step: Step, f: Stream)
    requires Enabled(x, s, step) && After(x, s, step).PumpOf(f).stage == Ended(ReadFailed)
    ensures s.PumpOf(f).stage == Ended(ReadFailed) || step == ReadError(f)
  {
  }

  lemma {:induction false} ReadFailureWasReal(x: Session, s0: State, steps: seq<Step>, s: State, f: Stream)
    requires Runs(x, s0, steps, s) && s.PumpOf(f).stage == Ended(ReadFailed)
    ensures s0.PumpOf(f).stage == Ended(ReadFailed) || ReadError(f) in steps
    decreases |steps|
  {
    if steps != [] {
      var s1 := After(x, s0, steps[0]);
      ReadFailureWasReal(x, s1, steps[1..], s, f);
      if s1.PumpOf(f).stage == Ended(ReadFailed) {
        ReadFailureStep(x, s0, steps[0], f);
      }
    }
  }

  /** What ends the feeding early: the input, a write, or the child. */
  ghost predicate StopsFeeding(step: Step) {
    step.InputEnds? || step.WriteError? || step.ChildExits?
  }

  /** The child has been given all the data received so far. */
  ghost predicate Fed(x: Session, s: State) {
    1 <= s.taken <= |x.input| && s.written == Stdin(x.input[1..s.taken])
  }

  ghost predicate StillOver(s: State, s': State) {
    s.feeder.Over? && s'.taken == s.taken && s'.written == s.written
  }

  lemma OverReceives(x: Session, s: State)
    requires Feeding(x, s) && Enabled(x, s, Receive) && After(x, s, Receive).feeder.Over?
    ensures Fed(x, After(x, s, Receive))
  {
    var m := x.input[s.taken];
    assert x.input[1..s.taken + 1] == x.input[1..s.taken] + [m];
    StdinOfAppend(x.input[1..s.taken], m);
    assert s.written + [] == s.written;
  }

  lemma FeederStep(x: Session, s: State, step: Step)
    requires Feeding(x, s) && Enabled(x, s, step) && After(x, s, step).feeder.Over?
    ensures StillOver(s, After(x, s, step)) || StopsFeeding(step) || Fed(x, After(x, s, step))
  {
    if step.Receive? {
      OverReceives(x, s);
    }
  }

  lemma {:induction false} FeedingStoppedFor(x: Session, s0: State, steps: seq<Step>, s: State)
    requires Inv(x, s0) && Runs(x, s0, steps, s) && s.feeder.Over?
    ensures StillOver(s0, s) || (exists step :: step in steps && StopsFeeding(step)) || Fed(x, s)
    decreases |steps|
  {
    if steps != [] {
      var s1 := After(x, s0, steps[0]);
      InvStep(x, s0, steps[0], After(x, s0, steps[0]));
      FeedingStoppedFor(x, s1, steps[1..], s);
      if StillOver(s1, s) {
        FeederStep(x, s0, steps[0]);
      }
    }
  }

  /**
   Unless the input, a write or the child ended the feeding, the child has been given all data received so
   far, up to the first message that is not data, short only of what is being written.
   */
  lemma ChildGetsAll(x: Session, steps: seq<Step>, s: State)
    requires Runs(x, INITIAL, steps, s) && !s.feeder.Waiting?
    requires forall step :: step in steps ==> !StopsFeeding(step)
    ensures 1 <= s.taken <= |x.input|
    ensures s.written + (if s.feeder.Writing? then s.feeder.rest else []) == Stdin(x.input[1..s.taken])
  {
    ReachableInv(x, s);
    if s.feeder.Over? {
      FeedingStoppedFor(x, INITIAL, steps, s);
    }
    assert s.written + [] == s.written;
  }

  // ----- The guarantees -----

  /** The exit code is sent at most once and nothing follows it, in the log and for the client. */
  lemma ExitCodeIsLast(x: Session, s: State, i: nat)
    requires Reachable(x, s) && i < |s.log| && !s.log[i].Chunk?
    ensures i == |s.log| - 1 && s.main.Done?
    ensures s.got <= s.log
  {
    ReachableInv(x, s);
    assert forall j :: 0 <= j < |s.log| - 1 ==> s.log[..|s.log| - 1][j] == s.log[j];
  }

  /** What the client has received of a stream is a prefix of what the child wrote to it. */
  lemma ClientSeesPrefix(x: Session, s: State, from: Stream)
    requires Reachable(x, s)
    ensures Payload(s.got, from) <= x.Total(from)
  {
    ReachableInv(x, s);
    assert s.got <= s.log;
    PayloadOfPrefix(s.got, s.log, from);
    SentIsPrefix(x, s, from);
  }

  lemma SentIsPrefix(x: Session, s: State, from: Stream)
    requires Pumps(x, s)
    ensures Payload(s.log, from) <= x.Total(from)
  {
    var p, sent, total := s.PumpOf(from), Payload(s.log, from), x.Total(from);
    assert PumpOk(total, p, sent, s.gone);
    assert p.stage.Sending? ==> sent <= sent + p.stage.chunk;
  }

  /**
   A client that has received the exit code, whether it is still there or not, has received all of each
   stream on which no read failed.
   */
  lemma ClientSeesAll(x: Session, steps: seq<Step>, s: State, from: Stream)
    requires Runs(x, INITIAL, steps, s) && s.got != [] && s.got[|s.got| - 1].ExitCode?
    requires ReadError(from) !in steps
    ensures Payload(s.got, from) == x.Total(from)
  {
    ReachableInv(x, s);
    if s.PumpOf(from).stage == Ended(ReadFailed) {
      ReadFailureWasReal(x, INITIAL, steps, s, from);
    }
    ExitCodeIsLast(x, s, |s.got| - 1);
    assert s.log == s.got;
    assert PumpOk(x.Total(from), s.PumpOf(from), Payload(s.log, from), s.gone);
  }

  /** The child's input is a prefix of the data sent before the first message of another kind. */
  lemma ChildGetsPrefix(x: Session, s: State)
    requires Reachable(x, s)
    ensures if |x.input| == 0 then s.written == [] else s.written <= Stdin(x.input[1..])
    ensures s.written != [] ==> x.input[0] == Start
  {
    ReachableInv(x, s);
    if !s.feeder.Waiting? {
      FeedingEnds(x, s);
    }
  }

  /** Every session that ends with its client there sends, last, the exit code or a failure. */
  lemma EverySessionReports(x: Session, s: State)
    requires Reachable(x, s) && s.main.Done? && !s.gone && |x.input| > 0
    ensures s.log != [] && (s.log[|s.log| - 1].ExitCode? || s.log[|s.log| - 1].Failure?)
  {
    ReachableInv(x, s);
  }

  // ----- A whole session -----

  lemma RunsFirst(x: Session, s: State, step: Step, rest: seq<Step>, s1: State, end: State)
    requires Enabled(x, s, step) && s1 == After(x, s, step) && Runs(x, s1, rest, end)
    ensures Runs(x, s, [step] + rest, end)
  {
    assert ([step] + rest)[1..] == rest;
  }

  /** The steps of a child that writes once to stdout and exits with `k`, up to its last message. */
  function OneWrite(n: nat, k: int): seq<Step> {
    [Begin(true)] + ([Read(Stdout, n)] + ([SendChunk(Stdout)] + ([Eof(Stdout)] + ([Eof(Stderr)] + ToTheEnd(k)))))
  }

  function ToTheEnd(k: int): seq<Step> {
    [Joined] + ([Joined] + ([ChildExits(k)] + ([SendFinal] + ([ClientReceives] + ([ClientReceives] + [])))))
  }

  /** The last two of a session's messages arrive. */
  lemma BothArrive(x: Session, s: State, m: Output, last: Output, end: State)
    requires s.main == SendLast(last) && !s.gone && s.channel == [m] && s.got == [] && s.log == [m]
    requires end == s.(main := Done, channel := [], log := [m, last], got := [m, last])
    ensures Runs(x, s, [SendFinal] + ([ClientReceives] + ([ClientReceives] + [])), end)
  {
    var s1 := s.(main := Done, channel := [m, last], log := [m, last]);
    var s2 := s1.(channel := [last], got := [m]);
    assert [m] + [last] == [m, last] && [m, last][1..] == [last] && [last][1..] == [];
    assert Runs(x, end, [], end);
    RunsFirst(x, s2, ClientReceives, [], end, end);
    RunsFirst(x, s1, ClientReceives, [ClientReceives] + [], s2, end);
    RunsFirst(x, s, SendFinal, [ClientReceives] + ([ClientReceives] + []), s1, end);
  }

  /** With both pumps at their end and one message on its way, the client gets it and then the exit code. */
  lemma Finishes(x: Session, s: State, m: Output, k: int, end: State)
    requires s.main == JoinStdout && s.out.stage == Ended(AtEof) && s.err.stage == Ended(AtEof) && !s.gone
    requires s.channel == [m] && s.got == [] && s.log == [m]
    requires end == s.(main := Done, feeder := Over, channel := [], log := [m, ExitCode(k)], got := [m, ExitCode(k)])
    ensures Runs(x, s, ToTheEnd(k), end)
  {
    var s1 := s.(main := JoinStderr);
    var s2 := s.(main := WaitChild);
    var s3 := s.(main := SendLast(ExitCode(k)), feeder := Over);
    var arrive := [SendFinal] + ([ClientReceives] + ([ClientReceives] + []));
    BothArrive(x, s3, m, ExitCode(k), end);
    RunsFirst(x, s2, ChildExits(k), arrive, s3, end);
    RunsFirst(x, s1, Joined, [ChildExits(k)] + arrive, s2, end);
    RunsFirst(x, s, Joined, [Joined] + ([ChildExits(k)] + arrive), s1, end);
  }

  /** Such a child's client receives exactly its output and its exit code. */
  lemma OneWriteSession(x: Session, k: int)
    requires x.input == [Start] && 1 <= |x.stdout| <= CHUNK_SIZE && x.stderr == []
    ensures exists s :: Runs(x, INITIAL, OneWrite(|x.stdout|, k), s) && s.got == [Chunk(Stdout, x.stdout), ExitCode(k)]
  {
    var n := |x.stdout|;
    var m := Chunk(Stdout, x.stdout);
    var s1 := INITIAL.(main := JoinStdout, out := Pump(Reading, 0), err := Pump(Reading, 0), feeder := Receiving, taken := 1);
    var s2 := s1.(out := Pump(Sending(x.stdout), n));
    var s3 := s1.(out := Pump(Reading, n), channel := [m], log := [m]);
    var s4 := s3.(out := Pump(Ended(AtEof), n));
    var s5 := s4.(err := Pump(Ended(AtEof), 0));
    var end := s5.(main := Done, feeder := Over, channel := [], log := [m, ExitCode(k)], got := [m, ExitCode(k)]);
    assert x.stdout[0..n] == x.stdout && [] + [m] == [m];
    Finishes(x, s5, m, k, end);
    RunsFirst(x, s4, Eof(Stderr), ToTheEnd(k), s5, end);
    RunsFirst(x, s3, Eof(Stdout), [Eof(Stderr)] + ToTheEnd(k), s4, end);
    RunsFirst(x, s2, SendChunk(Stdout), [Eof(Stdout)] + ([Eof(Stderr)] + ToTheEnd(k)), s3, end);
    RunsFirst(x, s1, Read(Stdout, n), [SendChunk(Stdout)] + ([Eof(Stdout)] + ([Eof(Stderr)] + ToTheEnd(k))), s2, end);
    RunsFirst(x, INITIAL, Begin(true),
              [Read(Stdout, n)] + ([SendChunk(Stdout)] + ([Eof(Stdout)] + ([Eof(Stderr)] + ToTheEnd(k)))), s1, end);
  }

  /** A session that cannot begin tells the client so, and nothing else. */
  lemma FailedSession(x: Session, ok: bool)
    requires CannotBegin(x, Begin(ok))
    ensures exists s :: Runs(x, INITIAL, [Begin(ok)] + ([SendFinal] + ([ClientReceives] + [])), s)
                        && s.main.Done? && s.got == [Failure]
  {
    var s1 := INITIAL.(main := SendLast(Failure), taken := if |x.input| == 0 then 0 else 1);
    var s2 := s1.(main := Done, channel := [Failure], log := [Failure]);
    var end := s2.(channel := [], got := [Failure]);
    assert [] + [Failure] == [Failure] && [Failure][1..] == [];
    assert Runs(x, end, [], end);
    RunsFirst(x, s2, ClientReceives, [], end, end);
    RunsFirst(x, s1, SendFinal, [ClientReceives] + [], s2, end);
    RunsFirst(x, INITIAL, Begin(ok), [SendFinal] + ([ClientReceives] + []), s1, end);
  }
}
