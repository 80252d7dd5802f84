/**
 The event store: producers send records over an unbounded channel to one background writer, which
 commits them to the database in batches. A failed commit loses its batch. A schedule says which
 messages have arrived by each poll of the channel, so a statement about all schedules is a
 statement about every interleaving of the producers with the writer.
 */
module EventStore {
  import opened Options

  datatype EventRecord = EventRecord(eventType: string, category: string, data: string)

  datatype PersistMode = All | Structured | Nothing

  /** What the writer receives; `Close` asks it to flush and stop. */
  datatype Msg = Event(record: EventRecord) | Close

  /** A call on the event store. */
  datatype Call = Emit(record: EventRecord) | CloseSession

  function ShouldPersist(mode: PersistMode, r: EventRecord): bool {
    match mode
    case All => true
    case Structured => r.eventType != "log"
    case Nothing => false
  }

  /** The messages a sequence of calls puts on the channel. */
  function Outgoing(mode: PersistMode, calls: seq<Call>): seq<Msg> {
    if calls == [] then []
    else
      (match calls[0]
       case Emit(r) => if ShouldPersist(mode, r) then [Event(r)] else []
       case CloseSession => [Close])
      + Outgoing(mode, calls[1..])
  }

  /** The records a sequence of calls should leave in the database. */
  function Eligible(mode: PersistMode, calls: seq<Call>): seq<EventRecord> {
    if calls == [] then []
    else
      (if calls[0].Emit? && ShouldPersist(mode, calls[0].record) then [calls[0].record] else [])
      + Eligible(mode, calls[1..])
  }

  function CallsUntilClose(calls: seq<Call>): seq<Call> {
    if calls == [] || calls[0].CloseSession? then [] else [calls[0]] + CallsUntilClose(calls[1..])
  }

  function Events(ms: seq<Msg>): seq<EventRecord> {
    if ms == [] then []
    else (if ms[0].Event? then [ms[0].record] else []) + Events(ms[1..])
  }

  /** The messages before the first `Close`. */
  function UntilClose(ms: seq<Msg>): seq<Msg> {
    if ms == [] || ms[0].Close? then [] else [ms[0]] + UntilClose(ms[1..])
  }

  function Flatten<T>(xss: seq<seq<T>>): seq<T> {
    if xss == [] then [] else xss[0] + Flatten(xss[1..])
  }

  // ----- The channel -----

  /** Messages waiting, and those that will have arrived by each of the next polls. */
  datatype Channel = Channel(queue: seq<Msg>, coming: seq<seq<Msg>>) {
    /** Everything that is still to be received, in send order. */
    ghost function Pending(): seq<Msg> {
      queue + Flatten(coming)
    }

    /** `c` is this channel after some polls: what is still to come is a final part of what was. */
    ghost predicate Becomes(c: Channel) {
      |c.coming| <= |coming| && c.coming == coming[|coming| - |c.coming|..]
    }

    function Arrive(): (c: Channel)
      ensures c.Pending() == Pending()
    {
      if coming == [] then this else Channel(queue + coming[0], coming[1..])
    }

    function Pop(): (r: (Option<Msg>, Channel))
      ensures r.0.Some? ==> Pending() == [r.0.value] + r.1.Pending()
      ensures r.0.None? ==> r.1 == this && queue == []
    {
      if queue == [] then (None, this) else (Some(queue[0]), Channel(queue[1..], coming))
    }

    /** A poll that does not wait. */
    function TryRecv(): (r: (Option<Msg>, Channel))
      ensures r.0.Some? ==> Pending() == [r.0.value] + r.1.Pending()
      ensures r.0.None? ==> Pending() == r.1.Pending() && r.1.queue == []
    {
      Arrive().Pop()
    }

    /** Waits for a message; `None` when every sender is gone and nothing is left. */
    function Recv(): (r: (Option<Msg>, Channel))
      ensures r.0.Some? ==> Pending() == [r.0.value] + r.1.Pending()
      ensures r.0.None? ==> Pending() == r.1.Pending() == []
      decreases |coming|
    {
      var c := Arrive();
      if c.queue != [] then c.Pop()
      else if coming == [] then (None, c)
      else c.Recv()
    }
  }

  // ----- Batches -----

  /** One transaction: the batch, and whether its commit succeeded. */
  datatype Attempt = Attempt(batch: seq<EventRecord>, committed: bool)

  function Batched(attempts: seq<Attempt>): seq<EventRecord> {
    if attempts == [] then [] else attempts[0].batch + Batched(attempts[1..])
  }

  /** The rows the transactions leave in the database: whole batches, or nothing. */
  function Stored(attempts: seq<Attempt>): seq<EventRecord> {
    if attempts == [] then []
    else (if attempts[0].committed then attempts[0].batch else []) + Stored(attempts[1..])
  }

  ghost predicate AllCommitted(attempts: seq<Attempt>) {
    forall i :: 0 <= i < |attempts| ==> attempts[i].committed
  }

  /** A transaction leaves its whole batch or nothing, and transactions leave what each of them leaves. */
  lemma {:induction false} StoredOne(attempts: seq<Attempt>, a: Attempt)
    ensures Stored(attempts + [a]) == Stored(attempts) + if a.committed then a.batch else []
  {
    if attempts == [] {
      assert attempts + [a] == [a] && [a][1..] == [];
    } else {
      assert (attempts + [a])[1..] == attempts[1..] + [a];
      StoredOne(attempts[1..], a);
    }
  }

  /** When every commit succeeds nothing is lost. */
  lemma {:induction false} CommittedIsStored(attempts: seq<Attempt>)
    requires AllCommitted(attempts)
    ensures Stored(attempts) == Batched(attempts)
  {
    if attempts != [] {
      CommittedIsStored(attempts[1..]);
    }
  }

  lemma {:induction false} EventsSplit(a: seq<Msg>, b: seq<Msg>)
    ensures Events(a + b) == Events(a) + Events(b)
  {
    if a == [] {
      assert a + b == b;
    } else {
      assert (a + b)[1..] == a[1..] + b;
      EventsSplit(a[1..], b);
      var first := if a[0].Event? then [a[0].record] else [];
      assert first + (Events(a[1..]) + Events(b)) == (first + Events(a[1..])) + Events(b);
    }
  }

  // ----- Which records go into which transaction -----

  /** What a drain takes off a channel, whether it met a `Close`, and what it leaves. */
  datatype Intake = Intake(records: seq<EventRecord>, closed: bool, rest: Channel)

  function Before(records: seq<EventRecord>, i: Intake): Intake {
    i.(records := records + i.records)
  }

  /** A drain that ends at a `Close`, which it leaves, or at a poll that finds nothing. */
  ghost function UpToClose(c: Channel): (i: Intake)
    ensures |i.rest.Pending()| <= |c.Pending()|
    decreases |c.Pending()|
  {
    var (m, next) := c.TryRecv();
    match m
    case None => Intake([], false, next)
    case Some(Close) => Intake([], true, c)
    case Some(Event(r)) => Before([r], UpToClose(next))
  }

  /** A drain that skips every `Close` and ends at a poll that finds nothing. */
  ghost function PastClose(c: Channel): Intake
    decreases |c.Pending()|
  {
    var (m, next) := c.TryRecv();
    match m
    case None => Intake([], false, next)
    case Some(Close) => PastClose(next)
    case Some(Event(r)) => Before([r], PastClose(next))
  }

  /** Why the writer stopped: the two places where it reads `Close`, or all senders were dropped. */
  datatype Exit = ClosedWaiting | ClosedDraining | HungUp

  /** A whole run of the writer: its batches, why it stopped, and the channel it left. */
  datatype Outcome = Outcome(batches: seq<seq<EventRecord>>, exit: Exit, rest: Channel)

  function Then(batches: seq<seq<EventRecord>>, o: Outcome): Outcome {
    o.(batches := batches + o.batches)
  }

  /** A batch is a record waited for with the drain after it, or the drain after a `Close` waited for. */
  ghost function Written(c: Channel): Outcome
    decreases |c.Pending()|
  {
    var (m, next) := c.Recv();
    match m
    case None => Outcome([], HungUp, next)
    case Some(Close) =>
      var i := PastClose(next);
      Outcome(if i.records == [] then [] else [i.records], ClosedWaiting, i.rest)
    case Some(Event(r)) =>
      var i := UpToClose(next);
      if i.closed then Outcome([[r] + i.records], ClosedDraining, i.rest)
      else Then([[r] + i.records], Written(i.rest))
  }

  // ----- What the batches hold -----

  /**
   The batches hold, in send order and once each, at least the records sent before the first `Close`:
   exactly those if the `Close` was met while draining, everything that arrived by the last of `polled`
   polls if it was waited for, and all records if there was none.
   */
  ghost predicate Complete(coming: seq<seq<Msg>>, batched: seq<EventRecord>, exit: Exit, polled: nat) {
    var sent := Flatten(coming);
    && Events(UntilClose(sent)) <= batched <= Events(sent)
    && (exit.HungUp? <==> Close !in sent)
    && (exit.HungUp? ==> batched == Events(sent))
    && (exit.ClosedDraining? ==> batched == Events(UntilClose(sent)))
    && polled <= |coming| && (exit.ClosedWaiting? ==> batched == Events(Flatten(coming[..polled])))
  }

  /** The messages `p` are `records`, sent before any `Close`, and then the messages `q`. */
  ghost predicate Leads(p: seq<Msg>, records: seq<EventRecord>, q: seq<Msg>) {
    && Events(p) == records + Events(q)
    && Events(UntilClose(p)) == records + Events(UntilClose(q))
    && (Close in p <==> Close in q)
  }

  lemma LeadsNone(p: seq<Msg>)
    ensures Leads(p, [], p)
  {
    assert [] + Events(p) == Events(p) && [] + Events(UntilClose(p)) == Events(UntilClose(p));
  }

  lemma LeadsFirst(p: seq<Msg>, r: EventRecord, q: seq<Msg>, records: seq<EventRecord>, z: seq<Msg>)
    requires p == [Event(r)] + q && Leads(q, records, z)
    ensures Leads(p, [r] + records, z)
  {
    assert p[1..] == q;
    assert ([Event(r)] + UntilClose(q))[1..] == UntilClose(q);
    assert [r] + (records + Events(z)) == [r] + records + Events(z);
    assert [r] + (records + Events(UntilClose(z))) == [r] + records + Events(UntilClose(z));
  }

  lemma {:induction false} TakenUpToClose(c: Channel, i: Intake)
    requires i == UpToClose(c)
    ensures Leads(c.Pending(), i.records, i.rest.Pending())
    ensures i.closed ==> i.rest.Pending() != [] && i.rest.Pending()[0] == Close
    decreases |c.Pending()|
  {
    var (m, next) := c.TryRecv();
    match m
    case None => LeadsNone(c.Pending());
    case Some(Close) => LeadsNone(c.Pending());
    case Some(Event(r)) =>
      TakenUpToClose(next, UpToClose(next));
      LeadsFirst(c.Pending(), r, next.Pending(), UpToClose(next).records, i.rest.Pending());
  }

  lemma EventsFirst(p: seq<Msg>, m: Msg, q: seq<Msg>, records: seq<EventRecord>, z: seq<Msg>)
    requires p == [m] + q && Events(q) == records + Events(z)
    ensures Events(p) == (if m.Event? then [m.record] + records else records) + Events(z)
  {
    assert p[1..] == q;
    if m.Event? {
      assert [m.record] + (records + Events(z)) == [m.record] + records + Events(z);
    }
  }

  lemma {:induction false} TakenPastClose(c: Channel, i: Intake)
    requires i == PastClose(c)
    ensures Events(c.Pending()) == i.records + Events(i.rest.Pending()) && i.rest.queue == []
    decreases |c.Pending()|
  {
    var (m, next) := c.TryRecv();
    if m.Some? {
      TakenPastClose(next, PastClose(next));
      EventsFirst(c.Pending(), m.value, next.Pending(), PastClose(next).records, i.rest.Pending());
    } else {
      LeadsNone(c.Pending());
    }
  }

  /** A run over the messages `p` put `batched` into batches and left the messages `q`. */
  ghost predicate Accounts(p: seq<Msg>, batched: seq<EventRecord>, exit: Exit, q: seq<Msg>) {
    && batched + Events(q) == Events(p)
    && Events(UntilClose(p)) <= batched
    && (exit.HungUp? <==> Close !in p)
    && (exit.HungUp? ==> q == [])
    && (exit.ClosedDraining? ==> batched == Events(UntilClose(p)))
  }

  lemma AccountsAfter(p: seq<Msg>, records: seq<EventRecord>, mid: seq<Msg>, batched: seq<EventRecord>, exit: Exit, q: seq<Msg>)
    requires Leads(p, records, mid) && Accounts(mid, batched, exit, q)
    ensures Accounts(p, records + batched, exit, q)
  {
    assert records + (batched + Events(q)) == records + batched + Events(q);
  }

  lemma AccountsClose(p: seq<Msg>, rest: seq<Msg>, batched: seq<EventRecord>, q: seq<Msg>)
    requires p == [Close] + rest && Events(rest) == batched + Events(q)
    ensures Accounts(p, batched, ClosedWaiting, q)
  {
    assert p[0] == Close && p[1..] == rest;
  }

  lemma AccountsDrained(p: seq<Msg>)
    requires p != [] && p[0] == Close
    ensures Accounts(p, [], ClosedDraining, p)
  {
    assert [] + Events(p) == Events(p);
  }

  lemma {:induction false} RunAccounts(c: Channel, p: seq<Msg>, o: Outcome)
    requires p == c.Pending() && o == Written(c)
    ensures Accounts(p, Flatten(o.batches), o.exit, o.rest.Pending())
    ensures o.exit.ClosedWaiting? ==> o.rest.queue == []
    decreases |c.Pending()|
  {
    var (m, next) := c.Recv();
    match m
    case None =>
    case Some(Close) =>
      var i := PastClose(next);
      TakenPastClose(next, i);
      assert Flatten([i.records]) == i.records by { assert [i.records][1..] == []; }
      AccountsClose(p, next.Pending(), i.records, i.rest.Pending());
    case Some(Event(r)) =>
      var i := UpToClose(next);
      TakenUpToClose(next, i);
      LeadsFirst(p, r, next.Pending(), i.records, i.rest.Pending());
      if i.closed {
        ClosedRound(p, [r] + i.records, i.rest.Pending());
      } else {
        var more := Written(i.rest);
        RunAccounts(i.rest, i.rest.Pending(), more);
        RoundAccounts(p, [r] + i.records, i.rest.Pending(), more.batches, more.exit, more.rest.Pending());
      }
  }

  /** A round and what follows it. */
  lemma RoundAccounts(p: seq<Msg>, batch: seq<EventRecord>, mid: seq<Msg>,
                      batches: seq<seq<EventRecord>>, exit: Exit, q: seq<Msg>)
    requires Leads(p, batch, mid) && Accounts(mid, Flatten(batches), exit, q)
    ensures Accounts(p, Flatten([batch] + batches), exit, q)
  {
    AccountsAfter(p, batch, mid, Flatten(batches), exit, q);
    assert ([batch] + batches)[1..] == batches;
  }

  lemma ClosedRound(p: seq<Msg>, batch: seq<EventRecord>, mid: seq<Msg>)
    requires Leads(p, batch, mid) && mid != [] && mid[0] == Close
    ensures Accounts(p, Flatten([batch]), ClosedDraining, mid)
  {
    AccountsDrained(mid);
    RoundAccounts(p, batch, mid, [], ClosedDraining, mid);
    assert [batch] + [] == [batch];
  }

  // ----- Polls -----

  lemma BecomesAgain(a: Channel, b: Channel, c: Channel)
    requires a.Becomes(b) && b.Becomes(c)
    ensures a.Becomes(c)
  {
  }

  lemma PollBecomes(c: Channel)
    ensures c.Becomes(c.Arrive()) && c.Becomes(c.TryRecv().1)
  {
  }

  lemma {:induction false} WaitBecomes(c: Channel)
    ensures c.Becomes(c.Recv().1)
    decreases |c.coming|
  {
    var next := c.Arrive();
    PollBecomes(c);
    if next.queue == [] && c.coming != [] {
      WaitBecomes(next);
      BecomesAgain(c, next, next.Recv().1);
    }
  }

  lemma {:induction false} DrainsBecome(c: Channel)
    ensures c.Becomes(UpToClose(c).rest) && c.Becomes(PastClose(c).rest)
    decreases |c.Pending()|
  {
    var (m, next) := c.TryRecv();
    PollBecomes(c);
    if m.Some? {
      DrainsBecome(next);
      BecomesAgain(c, next, UpToClose(next).rest);
      BecomesAgain(c, next, PastClose(next).rest);
    }
  }

  lemma {:induction false} RunBecomes(c: Channel)
    ensures c.Becomes(Written(c).rest)
    decreases |c.Pending()|
  {
    var (m, next) := c.Recv();
    WaitBecomes(c);
    if m.Some? {
      DrainsBecome(next);
      if m.value.Close? {
        BecomesAgain(c, next, PastClose(next).rest);
      } else {
        BecomesAgain(c, next, UpToClose(next).rest);
        if !UpToClose(next).closed {
          RunBecomes(UpToClose(next).rest);
          BecomesAgain(c, UpToClose(next).rest, Written(c).rest);
        }
      }
    }
  }

  lemma {:induction false} FlattenSplit<T>(xss: seq<seq<T>>, k: nat)
    requires k <= |xss|
    ensures Flatten(xss) == Flatten(xss[..k]) + Flatten(xss[k..])
    decreases k
  {
    if k > 0 {
      assert xss[..k][1..] == xss[1..][..k - 1] && xss[k..] == xss[1..][k - 1..];
      FlattenSplit(xss[1..], k - 1);
    }
  }

  /** For every schedule: no record twice or out of order, and none left out but those behind a `Close`. */
  lemma RunIsComplete(coming: seq<seq<Msg>>, o: Outcome)
    requires o == Written(Channel([], coming))
    ensures |o.rest.coming| <= |coming|
    ensures Complete(coming, Flatten(o.batches), o.exit, |coming| - |o.rest.coming|)
  {
    RunAccounts(Channel([], coming), Channel([], coming).Pending(), o);
    RunBecomes(Channel([], coming));
    CompleteOutcome(coming, Flatten(o.batches), o.exit, o.rest);
  }

  lemma CompleteOutcome(coming: seq<seq<Msg>>, batched: seq<EventRecord>, exit: Exit, rest: Channel)
    requires Accounts(Channel([], coming).Pending(), batched, exit, rest.Pending())
    requires Channel([], coming).Becomes(rest) && (exit.ClosedWaiting? ==> rest.queue == [])
    ensures Complete(coming, batched, exit, |coming| - |rest.coming|)
  {
    assert [] + Flatten(coming) == Flatten(coming);
    CompleteFrom(coming, batched, exit, rest.Pending(), |coming| - |rest.coming|);
  }

  lemma CompleteFrom(coming: seq<seq<Msg>>, batched: seq<EventRecord>, exit: Exit, q: seq<Msg>, k: nat)
    requires Accounts(Flatten(coming), batched, exit, q) && k <= |coming|
    requires exit.ClosedWaiting? ==> q == [] + Flatten(coming[k..])
    ensures Complete(coming, batched, exit, k)
  {
    assert exit.HungUp? ==> batched + [] == batched;
    if exit.ClosedWaiting? {
      WaitedForAll(coming, batched, k);
    }
  }

  lemma WaitedForAll(coming: seq<seq<Msg>>, batched: seq<EventRecord>, k: nat)
    requires k <= |coming| && batched + Events([] + Flatten(coming[k..])) == Events(Flatten(coming))
    ensures batched == Events(Flatten(coming[..k]))
  {
    FlattenSplit(coming, k);
    EventsSplit(Flatten(coming[..k]), Flatten(coming[k..]));
    assert [] + Flatten(coming[k..]) == Flatten(coming[k..]);
    SameFront(batched, Events(Flatten(coming[..k])), Events(Flatten(coming[k..])));
  }

  // ----- Where a transaction ends -----

  /** A drain stops only at a `Close` or when nothing is waiting. */
  lemma {:induction false} DrainsToTheEnd(c: Channel)
    ensures !UpToClose(c).closed ==> UpToClose(c).rest.queue == []
    decreases |c.Pending()|
  {
    var (m, next) := c.TryRecv();
    if m.Some? && m.value.Event? {
      DrainsToTheEnd(next);
    }
  }

  /** With nothing waiting at either end, the records between are those that arrived by the polls between. */
  lemma BetweenPolls(c: Channel, batch: seq<EventRecord>, rest: Channel)
    requires c.queue == [] && rest.queue == [] && c.Becomes(rest)
    requires Events(c.Pending()) == batch + Events(rest.Pending())
    ensures batch == Events(Flatten(c.coming[..|c.coming| - |rest.coming|]))
  {
    assert [] + Flatten(c.coming) == Flatten(c.coming);
    WaitedForAll(c.coming, batch, |c.coming| - |rest.coming|);
  }

  /**
   Each batch holds exactly what arrived by the polls from the end of the one before to a poll that finds
   nothing waiting; only the last one may be `cut` short by a `Close`.
   */
  ghost predicate CutAtPolls(coming: seq<seq<Msg>>, batches: seq<seq<EventRecord>>, cut: bool)
    decreases |batches|
  {
    || batches == []
    || (|batches| == 1 && cut)
    || exists j :: CutAt(coming, batches, cut, j)
  }

  ghost predicate CutAt(coming: seq<seq<Msg>>, batches: seq<seq<EventRecord>>, cut: bool, j: nat)
    requires batches != []
    decreases |batches|, 0
  {
    j <= |coming| && batches[0] == Events(Flatten(coming[..j])) && CutAtPolls(coming[j..], batches[1..], cut)
  }

  lemma CutFirst(c: Channel, batch: seq<EventRecord>, rest: Channel, batches: seq<seq<EventRecord>>, cut: bool)
    requires c.Becomes(rest) && batch == Events(Flatten(c.coming[..|c.coming| - |rest.coming|]))
    requires CutAtPolls(rest.coming, batches, cut)
    ensures CutAtPolls(c.coming, [batch] + batches, cut)
  {
    assert ([batch] + batches)[1..] == batches;
    assert CutAt(c.coming, [batch] + batches, cut, |c.coming| - |rest.coming|);
  }

  /** Every transaction ends where a poll finds nothing waiting, but for one cut by a `Close` met while draining. */
  lemma {:induction false} TransactionsEndAtPolls(c: Channel, o: Outcome)
    requires c.queue == [] && o == Written(c)
    ensures CutAtPolls(c.coming, o.batches, o.exit.ClosedDraining?)
    decreases |c.Pending()|
  {
    var (m, next) := c.Recv();
    match m
    case None =>
    case Some(Close) => CutAtClose(c, next, PastClose(next), o.exit.ClosedDraining?);
    case Some(Event(r)) => CutAtRound(c, o, r, next, UpToClose(next));
  }

  lemma CutAtRound(c: Channel, o: Outcome, r: EventRecord, next: Channel, i: Intake)
    requires c.queue == [] && o == Written(c) && c.Recv() == (Some(Event(r)), next) && i == UpToClose(next)
    ensures CutAtPolls(c.coming, o.batches, o.exit.ClosedDraining?)
    decreases |c.Pending()|, 0
  {
    WrittenRound(c, o, r, next, i);
    if !i.closed {
      RoundPolls(c, r, next, i);
      CutAfter(c, [r] + i.records, i.rest, Written(i.rest));
    }
  }

  lemma CutAfter(c: Channel, batch: seq<EventRecord>, rest: Channel, more: Outcome)
    requires c.Becomes(rest) && batch == Events(Flatten(c.coming[..|c.coming| - |rest.coming|]))
    requires rest.queue == [] && |rest.Pending()| < |c.Pending()| && more == Written(rest)
    ensures CutAtPolls(c.coming, [batch] + more.batches, more.exit.ClosedDraining?)
    decreases |c.Pending()|, 0, 0
  {
    TransactionsEndAtPolls(rest, more);
    CutFirst(c, batch, rest, more.batches, more.exit.ClosedDraining?);
  }

  lemma CutAtClose(c: Channel, next: Channel, i: Intake, cut: bool)
    requires c.queue == [] && c.Recv() == (Some(Close), next) && i == PastClose(next)
    ensures CutAtPolls(c.coming, [i.records], cut)
  {
    AfterCloseTakes(c, next, i);
    BetweenPolls(c, i.records, i.rest);
    assert [i.records] + [] == [i.records];
    CutFirst(c, i.records, i.rest, [], cut);
  }

  lemma RoundPolls(c: Channel, r: EventRecord, next: Channel, i: Intake)
    requires c.queue == [] && c.Recv() == (Some(Event(r)), next) && i == UpToClose(next)
    ensures c.Becomes(i.rest)
    ensures i.rest.queue == [] ==> [r] + i.records == Events(Flatten(c.coming[..|c.coming| - |i.rest.coming|]))
  {
    RoundTakes(c, r, next, i);
    if i.rest.queue == [] {
      BetweenPolls(c, [r] + i.records, i.rest);
    }
  }

  lemma WrittenRound(c: Channel, o: Outcome, r: EventRecord, next: Channel, i: Intake)
    requires o == Written(c) && c.Recv() == (Some(Event(r)), next) && i == UpToClose(next)
    ensures |i.rest.Pending()| < |c.Pending()|
    ensures i.closed ==> o.batches == [[r] + i.records] && o.exit == ClosedDraining
    ensures !i.closed ==> o.batches == [[r] + i.records] + Written(i.rest).batches && o.exit == Written(i.rest).exit
    ensures !i.closed ==> i.rest.queue == []
  {
    DrainsToTheEnd(next);
  }

  lemma RoundTakes(c: Channel, r: EventRecord, next: Channel, i: Intake)
    requires c.Recv() == (Some(Event(r)), next) && i == UpToClose(next)
    ensures c.Becomes(i.rest) && Events(c.Pending()) == [r] + i.records + Events(i.rest.Pending())
  {
    WaitBecomes(c);
    DrainsBecome(next);
    BecomesAgain(c, next, i.rest);
    TakenUpToClose(next, i);
    LeadsFirst(c.Pending(), r, next.Pending(), i.records, i.rest.Pending());
  }

  lemma AfterCloseTakes(c: Channel, next: Channel, i: Intake)
    requires c.Recv() == (Some(Close), next) && i == PastClose(next)
    ensures c.Becomes(i.rest) && i.rest.queue == [] && Events(c.Pending()) == i.records + Events(i.rest.Pending())
  {
    WaitBecomes(c);
    DrainsBecome(next);
    BecomesAgain(c, next, i.rest);
    TakenPastClose(next, i);
    EventsFirst(c.Pending(), Close, next.Pending(), i.records, i.rest.Pending());
  }

  lemma {:induction false} DrainOfWaiting(queue: seq<Msg>, i: Intake)
    requires i == UpToClose(Channel(queue, []))
    ensures i.records == Events(UntilClose(queue)) && i.closed == (Close in queue)
    ensures !i.closed ==> i.rest == Channel([], [])
    decreases |queue|
  {
    if queue != [] && queue[0].Event? {
      var next := Channel(queue[1..], []);
      DrainOfWaiting(queue[1..], UpToClose(next));
      assert Channel(queue, []).TryRecv() == (Some(queue[0]), next);
      assert ([queue[0]] + UntilClose(queue[1..]))[1..] == UntilClose(queue[1..]);
    }
  }

  lemma AllAtOnce(ms: seq<Msg>)
    requires ms != []
    ensures Channel([], [ms]).Recv() == (Some(ms[0]), Channel(ms[1..], []))
  {
    assert [] + ms == ms && [ms][1..] == [];
    assert Channel([], [ms]).Arrive() == Channel(ms, []);
  }

  lemma NothingMore()
    ensures Written(Channel([], [])).batches == [] && Written(Channel([], [])).exit == HungUp
  {
    assert Channel([], []).Recv().0 == None;
  }

  lemma FirstUntilClose(ms: seq<Msg>)
    requires ms != [] && ms[0].Event?
    ensures Events(UntilClose(ms)) == [ms[0].record] + Events(UntilClose(ms[1..]))
    ensures Close in ms <==> Close in ms[1..]
  {
    assert ([ms[0]] + UntilClose(ms[1..]))[1..] == UntilClose(ms[1..]);
  }

  /** Messages that all arrive by the first poll make one transaction, up to a `Close` met on the way. */
  lemma OneArrival(c: Channel, ms: seq<Msg>, o: Outcome)
    requires c == Channel([], [ms]) && ms != [] && ms[0].Event? && o == Written(c)
    ensures o.batches == [Events(UntilClose(ms))]
    ensures o.exit == if Close in ms then ClosedDraining else HungUp
  {
    AllAtOnce(ms);
    var i := UpToClose(Channel(ms[1..], []));
    WrittenRound(c, o, ms[0].record, Channel(ms[1..], []), i);
    DrainOfWaiting(ms[1..], i);
    FirstUntilClose(ms);
    NothingMore();
    assert [[ms[0].record] + i.records] + [] == [[ms[0].record] + i.records];
  }

  lemma SameFront<T>(a: seq<T>, b: seq<T>, end: seq<T>)
    requires a + end == b + end
    ensures a == b
  {
    assert a == (a + end)[..|a + end| - |end|] && b == (b + end)[..|b + end| - |end|];
  }

  lemma {:induction false} NoEmptyBatch(c: Channel)
    ensures [] !in Written(c).batches
    decreases |c.Pending()|
  {
    var (m, next) := c.Recv();
    if m.Some? && m.value.Event? {
      var i := UpToClose(next);
      var batch := [m.value.record] + i.records;
      assert batch != [];
      if !i.closed {
        NoEmptyBatch(i.rest);
        assert Written(c).batches == [batch] + Written(i.rest).batches;
      }
    }
  }

  lemma {:induction false} BatchedIsFlatten(attempts: seq<Attempt>, batches: seq<seq<EventRecord>>)
    requires |attempts| == |batches| && forall i :: 0 <= i < |batches| ==> attempts[i].batch == batches[i]
    ensures Batched(attempts) == Flatten(batches)
    decreases |batches|
  {
    if batches != [] { BatchedIsFlatten(attempts[1..], batches[1..]); }
  }

  // ----- The writer -----

  lemma BeforeAgain(a: seq<EventRecord>, b: seq<EventRecord>, i: Intake)
    ensures Before(a, Before(b, i)) == Before(a + b, i) && Before([], i) == i
  {
    assert a + (b + i.records) == (a + b) + i.records;
    assert [] + i.records == i.records;
  }

  lemma ThenAgain(a: seq<seq<EventRecord>>, b: seq<seq<EventRecord>>, o: Outcome)
    ensures Then(a, Then(b, o)) == Then(a + b, o) && Then([], o) == o
  {
    assert a + (b + o.batches) == (a + b) + o.batches;
    assert [] + o.batches == o.batches;
  }

  /** One transaction for each batch; commit number `i` succeeds as `commits(i)` says. */
  function Transactions(batches: seq<seq<EventRecord>>, commits: nat -> bool): (r: seq<Attempt>) {
    seq(|batches|, i requires 0 <= i < |batches| => Attempt(batches[i], commits(i)))
  }

  /** Commits a batch, if there is one, in one transaction, and empties it. */
  method FlushBatch(attempts: seq<Attempt>, batch: seq<EventRecord>, commits: nat -> bool)
    returns (attempts': seq<Attempt>)
    ensures attempts' == if batch == [] then attempts else attempts + [Attempt(batch, commits(|attempts|))]
  {
    if batch == [] {
      return attempts;
    }
    attempts' := attempts + [Attempt(batch, commits(|attempts|))];
  }

  /** After a `Close` that it waited for, the writer empties the channel, skipping further `Close`s. */
  method DrainAfterClose(c: Channel, batch: seq<EventRecord>) returns (batch': seq<EventRecord>, c': Channel)
    ensures Intake(batch', false, c') == Before(batch, PastClose(c))
  {
    batch', c' := batch, c;
    while true
      invariant Before(batch', PastClose(c')) == Before(batch, PastClose(c))
      decreases |c'.Pending()|
    {
      var (m, next) := c'.TryRecv();
      if m.None? {
        assert batch' + [] == batch';
        return batch', next;
      }
      if m.value.Event? {
        BeforeAgain(batch', [m.value.record], PastClose(next));
        batch' := batch' + [m.value.record];
      }
      c' := next;
    }
  }

  /** Receives what has already arrived; stops at a `Close`. */
  method Drain(c: Channel, batch: seq<EventRecord>) returns (batch': seq<EventRecord>, closed: bool, c': Channel)
    ensures Intake(batch', closed, c') == Before(batch, UpToClose(c))
  {
    batch', c' := batch, c;
    while true
      invariant Before(batch', UpToClose(c')) == Before(batch, UpToClose(c))
      decreases |c'.Pending()|
    {
      var (m, next) := c'.TryRecv();
      if m.None? {
        assert batch' + [] == batch';
        return batch', false, next;
      }
      if m.value.Close? {
        assert batch' + [] == batch';
        return batch', true, c';
      }
      BeforeAgain(batch', [m.value.record], UpToClose(next));
      c', batch' := next, batch' + [m.value.record];
    }
  }

  /** The transactions of the batches so far, and one more. */
  lemma OneMore(batches: seq<seq<EventRecord>>, batch: seq<EventRecord>, commits: nat -> bool)
    ensures Transactions(batches + [batch], commits)
         == Transactions(batches, commits) + [Attempt(batch, commits(|Transactions(batches, commits)|))]
  {
  }

  /** The writer's loop over a channel: the transactions it makes, why it stops, and the channel it leaves. */
  method WriterLoop(c: Channel, commits: nat -> bool) returns (attempts: seq<Attempt>, exit: Exit, channel: Channel)
    ensures attempts == Transactions(Written(c).batches, commits)
    ensures exit == Written(c).exit && channel == Written(c).rest
  {
    channel := c;
    ghost var done: seq<seq<EventRecord>> := [];
    ThenAgain([], [], Written(c));
    attempts := [];
    while true
      invariant Then(done, Written(channel)) == Written(c) && attempts == Transactions(done, commits)
      decreases |channel.Pending()|
    {
      var batch: seq<EventRecord> := [];
      var (m, next) := channel.Recv();
      match m {
        case None =>
          assert done + [] == done;
          attempts := FlushBatch(attempts, batch, commits);
          return attempts, HungUp, next;
        case Some(Close) =>
          BeforeAgain([], [], PastClose(next));
          batch, channel := DrainAfterClose(next, batch);
          OneMore(done, batch, commits);
          assert done + [] == done;
          attempts := FlushBatch(attempts, batch, commits);
          return attempts, ClosedWaiting, channel;
        case Some(Event(record)) =>
          var closed;
          batch, closed, channel := Drain(next, [record]);
          RoundDone(done, batch, closed, channel);
          OneMore(done, batch, commits);
          attempts := FlushBatch(attempts, batch, commits);
          done := done + [batch];
          if closed {
            return attempts, ClosedDraining, channel;
          }
      }
    }
  }

  lemma RoundDone(done: seq<seq<EventRecord>>, batch: seq<EventRecord>, closed: bool, rest: Channel)
    ensures Then(done, Outcome([batch], ClosedDraining, rest)) == Outcome(done + [batch], ClosedDraining, rest)
    ensures Then(done, Then([batch], Written(rest))) == Then(done + [batch], Written(rest))
  {
    ThenAgain(done, [batch], Written(rest));
  }

  /** No transaction is empty, and commit number `i` decides about the `i`-th. */
  ghost predicate WholeBatches(attempts: seq<Attempt>, commits: nat -> bool) {
    forall i :: 0 <= i < |attempts| ==> attempts[i].batch != [] && attempts[i].committed == commits(i)
  }

  /** Messages that arrive together, a record first, make one transaction, up to a `Close` among them. */
  ghost predicate OneIfTogether(coming: seq<seq<Msg>>, commits: nat -> bool, attempts: seq<Attempt>, exit: Exit) {
    |coming| == 1 && coming[0] != [] && coming[0][0].Event? ==>
      && attempts == [Attempt(Events(UntilClose(coming[0])), commits(0))]
      && exit == if Close in coming[0] then ClosedDraining else HungUp
  }

  /** What a run of the writer comes to. */
  ghost predicate Delivered(coming: seq<seq<Msg>>, commits: nat -> bool, rows: seq<EventRecord>,
                            attempts: seq<Attempt>, exit: Exit, polled: nat) {
    && attempts == Transactions(Written(Channel([], coming)).batches, commits) && rows == Stored(attempts)
    && WholeBatches(attempts, commits) && Complete(coming, Batched(attempts), exit, polled)
    && OneIfTogether(coming, commits, attempts, exit)
  }

  /**
   The background writer. Each transaction holds one batch of `Written`; every record is in at most one,
   in send order; nothing sent before the first `Close` is left out on either way of closing, nor what had
   arrived by the last of its `polled` polls when it waited for the `Close`. Rows are whole committed batches.
   */
  method BackgroundWriter(coming: seq<seq<Msg>>, commits: nat -> bool)
    returns (rows: seq<EventRecord>, attempts: seq<Attempt>, exit: Exit, polled: nat)
    ensures Delivered(coming, commits, rows, attempts, exit, polled)
  {
    ghost var run := Written(Channel([], coming));
    var left;
    attempts, exit, left := WriterLoop(Channel([], coming), commits);
    RunDelivers(coming, run, commits, attempts);
    rows, polled := Stored(attempts), |coming| - |left.coming|;
  }

  lemma RunDelivers(coming: seq<seq<Msg>>, o: Outcome, commits: nat -> bool, attempts: seq<Attempt>)
    requires o == Written(Channel([], coming)) && attempts == Transactions(o.batches, commits)
    ensures |o.rest.coming| <= |coming|
    ensures Delivered(coming, commits, Stored(attempts), attempts, o.exit, |coming| - |o.rest.coming|)
  {
    RunIsComplete(coming, o);
    NoEmptyBatch(Channel([], coming));
    TransactionsWhole(o.batches, commits);
    ArriveTogether(Channel([], coming), coming, o);
    DeliversOne(coming, o, commits);
  }

  lemma TransactionsWhole(batches: seq<seq<EventRecord>>, commits: nat -> bool)
    requires [] !in batches
    ensures WholeBatches(Transactions(batches, commits), commits)
    ensures Batched(Transactions(batches, commits)) == Flatten(batches)
  {
    BatchedIsFlatten(Transactions(batches, commits), batches);
    assert forall i :: 0 <= i < |batches| ==> batches[i] in batches;
  }

  ghost predicate OneBatchIfTogether(coming: seq<seq<Msg>>, o: Outcome) {
    |coming| == 1 && coming[0] != [] && coming[0][0].Event? ==>
      && o.batches == [Events(UntilClose(coming[0]))]
      && o.exit == if Close in coming[0] then ClosedDraining else HungUp
  }

  lemma ArriveTogether(c: Channel, coming: seq<seq<Msg>>, o: Outcome)
    requires c == Channel([], coming) && o == Written(c)
    ensures OneBatchIfTogether(coming, o)
  {
    if |coming| == 1 && coming[0] != [] && coming[0][0].Event? {
      assert coming == [coming[0]];
      OneArrival(c, coming[0], o);
    }
  }

  lemma DeliversOne(coming: seq<seq<Msg>>, o: Outcome, commits: nat -> bool)
    requires OneBatchIfTogether(coming, o)
    ensures OneIfTogether(coming, commits, Transactions(o.batches, commits), o.exit)
  {
    if |coming| == 1 && coming[0] != [] {
      OneTransaction(Events(UntilClose(coming[0])), commits);
    }
  }

  lemma OneTransaction(batch: seq<EventRecord>, commits: nat -> bool)
    ensures Transactions([batch], commits) == [Attempt(batch, commits(0))]
  {
  }

  // ----- Calls in, rows out -----

  /** What a message in front adds. */
  lemma FirstMessage(m: Msg, rest: seq<Msg>)
    ensures Events([m] + rest) == (if m.Event? then [m.record] else []) + Events(rest)
    ensures UntilClose([m] + rest) == if m.Close? then [] else [m] + UntilClose(rest)
  {
    assert ([m] + rest)[1..] == rest;
  }

  lemma FirstCall(mode: PersistMode, call: Call, rest: seq<Call>)
    ensures Eligible(mode, [call] + rest)
         == (if call.Emit? && ShouldPersist(mode, call.record) then [call.record] else []) + Eligible(mode, rest)
  {
    assert ([call] + rest)[1..] == rest;
  }

  lemma {:induction false} OutgoingEvents(mode: PersistMode, calls: seq<Call>)
    ensures Events(Outgoing(mode, calls)) == Eligible(mode, calls)
    ensures Events(UntilClose(Outgoing(mode, calls))) == Eligible(mode, CallsUntilClose(calls))
  {
    if calls != [] {
      OutgoingEvents(mode, calls[1..]);
      var rest := Outgoing(mode, calls[1..]);
      match calls[0]
      case CloseSession => FirstMessage(Close, rest);
      case Emit(r) =>
        FirstCall(mode, calls[0], CallsUntilClose(calls[1..]));
        if ShouldPersist(mode, r) {
          FirstMessage(Event(r), rest);
          FirstMessage(Event(r), UntilClose(rest));
        } else {
          assert [] + rest == rest;
        }
    }
  }

  function Emitted(calls: seq<Call>): seq<EventRecord> {
    if calls == [] then []
    else (if calls[0].Emit? then [calls[0].record] else []) + Emitted(calls[1..])
  }

  /** What the modes keep: everything, everything but logs, nothing. */
  lemma {:induction false} EligibleByMode(calls: seq<Call>, r: EventRecord)
    ensures Eligible(All, calls) == Emitted(calls) && Eligible(Nothing, calls) == []
    ensures r in Eligible(Structured, calls) <==> r in Emitted(calls) && r.eventType != "log"
    ensures multiset(Eligible(Structured, calls))[r] == if r.eventType == "log" then 0 else multiset(Emitted(calls))[r]
    decreases |calls|
  {
    if calls != [] {
      EligibleByMode(calls[1..], r);
    }
  }

  lemma {:induction false} OutgoingSplit(mode: PersistMode, a: seq<Call>, b: seq<Call>)
    ensures Outgoing(mode, a + b) == Outgoing(mode, a) + Outgoing(mode, b)
  {
    if a == [] {
      assert a + b == b;
    } else {
      assert (a + b)[1..] == a[1..] + b;
      OutgoingSplit(mode, a[1..], b);
    }
  }

  function SentAt(mode: PersistMode, schedule: seq<seq<Call>>): seq<seq<Msg>> {
    if schedule == [] then [] else [Outgoing(mode, schedule[0])] + SentAt(mode, schedule[1..])
  }

  lemma {:induction false} SentInOrder(mode: PersistMode, schedule: seq<seq<Call>>)
    ensures Flatten(SentAt(mode, schedule)) == Outgoing(mode, Flatten(schedule))
  {
    if schedule != [] {
      SentInOrder(mode, schedule[1..]);
      OutgoingSplit(mode, schedule[0], Flatten(schedule[1..]));
      assert SentAt(mode, schedule)[1..] == SentAt(mode, schedule[1..]);
    }
  }

  /**
   A whole session: whatever the schedule, when no commit fails the database holds a prefix of the
   persist-eligible events, and at least all those emitted before the session was first closed.
   */
  method RunSession(mode: PersistMode, schedule: seq<seq<Call>>, commits: nat -> bool)
    returns (rows: seq<EventRecord>, attempts: seq<Attempt>)
    ensures rows == Stored(attempts) && Batched(attempts) <= Eligible(mode, Flatten(schedule))
    ensures Eligible(mode, CallsUntilClose(Flatten(schedule))) <= Batched(attempts)
    ensures (forall k: nat :: commits(k)) ==>
              Eligible(mode, CallsUntilClose(Flatten(schedule))) <= rows <= Eligible(mode, Flatten(schedule))
  {
    SentInOrder(mode, schedule);
    OutgoingEvents(mode, Flatten(schedule));
    var exit, polled;
    rows, attempts, exit, polled := BackgroundWriter(SentAt(mode, schedule), commits);
    if forall k: nat :: commits(k) {
      CommittedIsStored(attempts);
    }
  }
}
