/**
 What the handlers achieve: a VM is registered only after its start succeeded, and each handler that runs to
 its end without interference does its whole job, whichever of its calls fail.
 */
module ProvisioningProgress {
  import opened Options
  import opened IpAllocation
  import opened VmRegistration
  import opened Iptables
  import opened OwnershipLedger
  import opened Provisioning
  import opened ProvisioningProofs
  import opened ProvisioningSafety

  /** The name of a TAP device is the first eleven of the 32 hexadecimal digits, so it fits 15 characters. */
  lemma TapNameDigits(id: VmId)
    ensures TapName(id).Tap? && TapName(id).digits < 0x1000_0000_0000
    ensures 0 <= id - TapName(id).digits * 0x10_0000_0000_0000_0000_0000 < 0x10_0000_0000_0000_0000_0000
  {
  }

  // ----- Registered only after a start that succeeded -----

  /** At this event the start of VM `id` succeeds. */
  ghost predicate StartSucceeds(s: State, ev: Event, id: VmId) {
    && ev.a == Advance(true) && ev.t in s.tasks
    && s.tasks[ev.t].Creating? && s.tasks[ev.t].stage.StartVm? && s.tasks[ev.t].entry.id == id
  }

  /** Some event of the run is such a start. */
  ghost predicate WasStarted(s0: State, events: seq<Event>, id: VmId)
    decreases |events|
  {
    && events != [] && Enabled(s0, events[0].t, events[0].a)
    && (StartSucceeds(s0, events[0], id) || WasStarted(After(s0, events[0].t, events[0].a), events[1..], id))
  }

  ghost predicate AwaitsRegistration(task: Task, id: VmId) {
    task.Creating? && (task.stage.AwaitAgent? || task.stage.Register?) && task.entry.id == id
  }

  /** VM `id` is registered, has been, or is about to be. */
  ghost predicate IsUp(s: State, id: VmId) {
    || id in s.vms || s.takes[id] > 0
    || exists t :: t in s.tasks && AwaitsRegistration(s.tasks[t], id)
  }

  lemma IsUpByRegistry(s: State, t: nat, s': State, id: VmId)
    requires t in s'.tasks && s'.tasks == s.tasks[t := s'.tasks[t]] && !AwaitsRegistration(s'.tasks[t], id)
    requires id in s'.vms || s'.takes[id] > 0 ==> IsUp(s, id)
    ensures IsUp(s', id) ==> IsUp(s, id)
  {
  }

  lemma IsUpCreating(s: State, t: nat, stage: CreateStage, e: Entry, ok: bool, id: VmId)
    requires s.pool.Valid() && Before(s, t, Creating(stage, e))
    requires IsUp(AdvanceCreating(s, t, stage, e, ok), id)
    ensures IsUp(s, id) || (stage.StartVm? && ok && e.id == id)
  {
    var s' := AdvanceCreating(s, t, stage, e, ok);
    if !AwaitsRegistration(s'.tasks[t], id) {
      assert stage.Register? && id == e.id ==> AwaitsRegistration(s.tasks[t], id);
      IsUpByRegistry(s, t, s', id);
    } else {
      assert stage.AwaitAgent? ==> AwaitsRegistration(s.tasks[t], id);
    }
  }

  lemma IsUpStep(s: State, ev: Event, id: VmId)
    requires Enabled(s, ev.t, ev.a) && IsUp(After(s, ev.t, ev.a), id)
    ensures IsUp(s, id) || StartSucceeds(s, ev, id)
  {
    if ev.a.Advance? {
      IsUpAdvance(s, ev.t, ev.a.ok, AfterAdvance(s, ev.t, ev.a.ok), id);
    } else {
      IsUpByRegistry(s, ev.t, After(s, ev.t, ev.a), id);
    }
  }

  lemma IsUpAdvance(s: State, t: nat, ok: bool, s': State, id: VmId)
    requires Enabled(s, t, Advance(ok)) && s' == AfterAdvance(s, t, ok) && IsUp(s', id)
    ensures IsUp(s, id) || StartSucceeds(s, Event(t, Advance(ok)), id)
  {
    match s.tasks[t]
    case Creating(stage, e) => IsUpCreating(s, t, stage, e, ok, id);
    case Deleting(step, e) => IsUpDeleting(s, t, step, e, ok, id);
    case Cleaning(list, next, busy) => IsUpCleaning(s, t, list, next, busy, ok, id);
    case _ => IsUpByRegistry(s, t, s', id);
  }

  lemma IsUpDeleting(s: State, t: nat, step: TeardownStage, e: Entry, ok: bool, id: VmId)
    requires s.pool.Valid() && IsUp(AdvanceDeleting(s, t, step, e, ok), id)
    ensures IsUp(s, id)
  {
    IsUpByRegistry(s, t, AdvanceDeleting(s, t, step, e, ok), id);
  }

  lemma IsUpCleaning(s: State, t: nat, list: seq<Entry>, next: nat, busy: Option<TeardownStage>, ok: bool, id: VmId)
    requires s.pool.Valid() && Before(s, t, Cleaning(list, next, busy))
    requires IsUp(AdvanceCleaning(s, t, list, next, busy, ok), id)
    ensures IsUp(s, id)
  {
    IsUpByRegistry(s, t, AdvanceCleaning(s, t, list, next, busy, ok), id);
  }

  lemma {:induction false} UpMeansStarted(s0: State, events: seq<Event>, s: State, id: VmId)
    requires Runs(s0, events, s) && IsUp(s, id)
    ensures IsUp(s0, id) || WasStarted(s0, events, id)
    decreases |events|
  {
    if events != [] {
      UpMeansStarted(After(s0, events[0].t, events[0].a), events[1..], s, id);
      if IsUp(After(s0, events[0].t, events[0].a), id) {
        IsUpStep(s0, events[0], id);
      }
    }
  }

  /** In every run of a fresh server a VM that is or was registered had its start succeed. */
  lemma RegisteredAfterStart(s0: State, events: seq<Event>, s: State, id: VmId)
    requires Init(s0) && Runs(s0, events, s) && (id in s.vms || s.takes[id] > 0)
    ensures WasStarted(s0, events, id)
  {
    UpMeansStarted(s0, events, s, id);
  }

  // ----- Every handler comes to its end -----

  function StageRank(stage: CreateStage): nat {
    match stage
    case MakeTap => 7
    case AttachTap => 6
    case AddRule => 5
    case StartVm => 4
    case AwaitAgent => 2
    case Register => 1
    case UndoRule => 3
    case UndoTap => 2
    case GiveBack => 1
  }

  function StepRank(step: TeardownStage): nat {
    match step
    case StopVm => 4
    case DropRule => 3
    case DropTap => 2
    case FreeAddress => 1
  }

  /** The most steps a handler can still take. */
  function Rank(task: Task): nat {
    match task
    case Requested(_) => 8
    case Creating(stage, _) => StageRank(stage)
    case DeleteRequested(_) => 5
    case Deleting(step, _) => StepRank(step)
    case Cleaning(list, next, busy) =>
      if next >= |list| then 1 else 5 * (|list| - next - 1) + 1 + if busy.Some? then StepRank(busy.value) else 5
    case Abandoned(_, _) => 0
    case Finished => 0
  }

  lemma CreatingRank(s: State, t: nat, stage: CreateStage, e: Entry, ok: bool)
    requires s.pool.Valid()
    ensures var s' := AdvanceCreating(s, t, stage, e, ok);
            t in s'.tasks && s'.tasks == s.tasks[t := s'.tasks[t]] && Rank(s'.tasks[t]) < StageRank(stage)
  {
  }

  lemma DeletingRank(s: State, t: nat, step: TeardownStage, e: Entry, ok: bool)
    requires s.pool.Valid()
    ensures var s' := AdvanceDeleting(s, t, step, e, ok);
            t in s'.tasks && s'.tasks == s.tasks[t := s'.tasks[t]] && Rank(s'.tasks[t]) < StepRank(step)
  {
  }

  lemma CleaningRank(s: State, t: nat, list: seq<Entry>, next: nat, busy: Option<TeardownStage>, ok: bool)
    requires s.pool.Valid()
    ensures var s' := AdvanceCleaning(s, t, list, next, busy, ok);
            t in s'.tasks && Rank(s'.tasks[t]) < Rank(Cleaning(list, next, busy))
  {
  }

  lemma CleaningFrame(s: State, t: nat, list: seq<Entry>, next: nat, busy: Option<TeardownStage>, ok: bool)
    requires s.pool.Valid()
    ensures var s' := AdvanceCleaning(s, t, list, next, busy, ok);
            t in s'.tasks && s'.tasks == s.tasks[t := s'.tasks[t]]
  {
  }

  lemma AdvanceRank(s: State, t: nat, ok: bool)
    requires Enabled(s, t, Advance(ok))
    ensures var s' := AfterAdvance(s, t, ok);
            t in s'.tasks && s'.tasks == s.tasks[t := s'.tasks[t]] && Rank(s'.tasks[t]) < Rank(s.tasks[t])
  {
    match s.tasks[t]
    case Creating(stage, e) => CreatingRank(s, t, stage, e, ok);
    case Deleting(step, e) => DeletingRank(s, t, step, e, ok);
    case Cleaning(list, next, busy) =>
      CleaningRank(s, t, list, next, busy, ok);
      CleaningFrame(s, t, list, next, busy, ok);
    case _ =>
  }

  /** A step of a handler brings it nearer to its end, and moves no other handler. */
  lemma RankFalls(s: State, ev: Event, t: nat)
    requires Enabled(s, ev.t, ev.a) && t in s.tasks
    ensures var s' := After(s, ev.t, ev.a);
            t in s'.tasks && if t == ev.t then Rank(s'.tasks[t]) < Rank(s.tasks[t]) else s'.tasks[t] == s.tasks[t]
  {
    match ev.a
    case Advance(ok) => AdvanceRank(s, ev.t, ok);
    case _ =>
  }

  /** How many events of a run move task `t`. */
  function Moves(events: seq<Event>, t: nat): nat {
    if events == [] then 0 else (if events[0].t == t then 1 else 0) + Moves(events[1..], t)
  }

  /**
   Whatever the other handlers do in between, no handler is moved more often than its rank says, and one
   that has been is at its end: eight times for a create, five for a delete, and for a shutdown five times
   a listed VM and once more.
   */
  lemma {:induction false} HandlersEnd(s0: State, events: seq<Event>, s: State, t: nat)
    requires Runs(s0, events, s) && t in s0.tasks
    ensures t in s.tasks && Rank(s.tasks[t]) + Moves(events, t) <= Rank(s0.tasks[t])
    ensures Moves(events, t) == Rank(s0.tasks[t]) ==> s.tasks[t].Finished? || s.tasks[t].Abandoned?
    decreases |events|
  {
    if events != [] {
      RankFalls(s0, events[0], t);
      HandlersEnd(After(s0, events[0].t, events[0].a), events[1..], s, t);
    }
  }

  // ----- A handler by itself -----

  /** Task `t` advances once for each outcome. */
  function Advances(t: nat, oks: seq<bool>): seq<Event> {
    if oks == [] then [] else [Event(t, Advance(oks[0]))] + Advances(t, oks[1..])
  }

  lemma Goes(s: State, t: nat, ok: bool, rest: seq<bool>, s1: State, end: State)
    requires Enabled(s, t, Advance(ok)) && s1 == AfterAdvance(s, t, ok) && Runs(s1, Advances(t, rest), end)
    ensures Runs(s, Advances(t, [ok] + rest), end)
  {
    assert ([ok] + rest)[1..] == rest;
    RunsFirst(s, Event(t, Advance(ok)), Advances(t, rest), s1, end);
  }

  lemma Stays(s: State, t: nat)
    ensures Runs(s, Advances(t, []), s)
  {
  }

  // ----- Create -----

  /** State `s` with a create for `e` under way: its address taken from the pool, and `forward` in the chain. */
  function Making(s: State, t: nat, e: Entry, forward: seq<Rule>, task: Task): State
    requires s.pool.Valid()
  {
    s.(used := s.used + {e.id}, pool := Allocated(s.pool).1, forward := forward, tasks := s.tasks[t := task])
  }

  function Begins(t: nat, id: VmId, oks: seq<bool>): seq<Event> {
    [Event(t, BeginCreate(id))] + Advances(t, oks)
  }

  /** Task `t` may begin a create that will get entry `e`. */
  ghost predicate MayBegin(s: State, t: nat, e: Entry) {
    && s.pool.Valid() && t !in s.tasks && FreshId(s, e.id)
    && Allocated(s.pool).0 == Some(e.ip) && e.tap == TapName(e.id)
  }

  /** A create gets as far as its TAP device. */
  lemma UpToTap(s: State, t: nat, e: Entry, a: bool, rest: seq<bool>, end: State)
    requires MayBegin(s, t, e)
    requires Runs(Making(s, t, e, s.forward, Creating(MakeTap, e)), Advances(t, rest), end)
    ensures Runs(s, Begins(t, e.id, [a] + rest), end)
  {
    var s1 := Put(s.(used := s.used + {e.id}), t, Requested(e.id));
    var s2 := Making(s, t, e, s.forward, Creating(MakeTap, e));
    assert AfterAdvance(s1, t, a) == s2;
    Goes(s1, t, a, rest, s2, end);
    RunsFirst(s, Event(t, BeginCreate(e.id)), Advances(t, [a] + rest), s1, end);
  }

  /** One stage of a create by itself. */
  lemma MakingStep(s: State, t: nat, e: Entry, forward: seq<Rule>, stage: CreateStage, ok: bool, rest: seq<bool>, end: State)
    requires s.pool.Valid()
    requires Runs(AdvanceCreating(Making(s, t, e, forward, Creating(stage, e)), t, stage, e, ok), Advances(t, rest), end)
    ensures Runs(Making(s, t, e, forward, Creating(stage, e)), Advances(t, [ok] + rest), end)
  {
    var m := Making(s, t, e, forward, Creating(stage, e));
    Goes(m, t, ok, rest, AdvanceCreating(m, t, stage, e, ok), end);
  }

  /** The stages of a create before its rule is in the chain. */
  lemma SetupNext(s: State, t: nat, e: Entry, forward: seq<Rule>, stage: CreateStage, ok: bool)
    requires s.pool.Valid() && (stage.MakeTap? || stage.AttachTap? || stage.AddRule?)
    ensures AdvanceCreating(Making(s, t, e, forward, Creating(stage, e)), t, stage, e, ok)
         == if !ok then Making(s, t, e, forward, Creating(GiveBack, e))
            else if stage.MakeTap? then Making(s, t, e, forward, Creating(AttachTap, e))
            else if stage.AttachTap? then Making(s, t, e, forward, Creating(AddRule, e))
            else Making(s, t, e, forward + [SourceRule(e)], Creating(StartVm, e))
  {
  }

  lemma StartNext(s: State, t: nat, e: Entry, forward: seq<Rule>, ok: bool)
    requires s.pool.Valid()
    ensures AdvanceCreating(Making(s, t, e, forward, Creating(StartVm, e)), t, StartVm, e, ok)
         == Making(s, t, e, forward, Creating(if ok then AwaitAgent else UndoRule, e))
  {
  }

  lemma QuietNext(s: State, t: nat, e: Entry, forward: seq<Rule>, ok: bool)
    requires s.pool.Valid()
    ensures AdvanceCreating(Making(s, t, e, forward, Creating(AwaitAgent, e)), t, AwaitAgent, e, ok)
         == Making(s, t, e, forward, Creating(Register, e))
    ensures AdvanceCreating(Making(s, t, e, forward, Creating(UndoTap, e)), t, UndoTap, e, ok)
         == Making(s, t, e, forward, Creating(GiveBack, e))
  {
  }

  lemma UpToAttach(s: State, t: nat, e: Entry, a: bool, rest: seq<bool>, end: State)
    requires MayBegin(s, t, e)
    requires Runs(Making(s, t, e, s.forward, Creating(AttachTap, e)), Advances(t, rest), end)
    ensures Runs(s, Begins(t, e.id, [a] + ([true] + rest)), end)
  {
    SetupNext(s, t, e, s.forward, MakeTap, true);
    MakingStep(s, t, e, s.forward, MakeTap, true, rest, end);
    UpToTap(s, t, e, a, [true] + rest, end);
  }

  lemma UpToRule(s: State, t: nat, e: Entry, a: bool, rest: seq<bool>, end: State)
    requires MayBegin(s, t, e)
    requires Runs(Making(s, t, e, s.forward, Creating(AddRule, e)), Advances(t, rest), end)
    ensures Runs(s, Begins(t, e.id, [a] + ([true] + ([true] + rest))), end)
  {
    SetupNext(s, t, e, s.forward, AttachTap, true);
    MakingStep(s, t, e, s.forward, AttachTap, true, rest, end);
    UpToAttach(s, t, e, a, [true] + rest, end);
  }

  lemma UpToStart(s: State, t: nat, e: Entry, a: bool, rest: seq<bool>, end: State)
    requires MayBegin(s, t, e)
    requires Runs(Making(s, t, e, s.forward + [SourceRule(e)], Creating(StartVm, e)), Advances(t, rest), end)
    ensures Runs(s, Begins(t, e.id, [a] + ([true] + ([true] + ([true] + rest)))), end)
  {
    SetupNext(s, t, e, s.forward, AddRule, true);
    MakingStep(s, t, e, s.forward, AddRule, true, rest, end);
    UpToRule(s, t, e, a, [true] + rest, end);
  }

  /** The state a successful create leaves: one VM, its rule and its address more. */
  function Created(s: State, t: nat, e: Entry): State
    requires s.pool.Valid()
  {
    Making(s, t, e, s.forward + [SourceRule(e)], Finished).(vms := s.vms[e.id := e])
  }

  lemma CreateEnds(s: State, t: nat, e: Entry, b: bool, c: bool)
    requires s.pool.Valid() && e.id !in s.vms
    ensures Runs(Making(s, t, e, s.forward + [SourceRule(e)], Creating(AwaitAgent, e)), Advances(t, [b] + ([c] + [])),
                 Created(s, t, e))
  {
    var forward := s.forward + [SourceRule(e)];
    var m := Making(s, t, e, forward, Creating(Register, e));
    assert m.tasks[t := Finished] == s.tasks[t := Finished];
    assert AdvanceCreating(m, t, Register, e, c) == Created(s, t, e);
    Stays(Created(s, t, e), t);
    MakingStep(s, t, e, forward, Register, c, [], Created(s, t, e));
    QuietNext(s, t, e, forward, b);
    MakingStep(s, t, e, forward, AwaitAgent, b, [c] + [], Created(s, t, e));
  }

  /** The outcomes of a create whose four fallible calls succeed; the others do not matter. */
  function AllWell(a: bool, b: bool, c: bool): seq<bool> {
    [a] + ([true] + ([true] + ([true] + ([true] + ([b] + ([c] + []))))))
  }

  /** A create whose calls succeed registers its VM, with the next address and its source rule. */
  lemma CreateSucceeds(s: State, t: nat, e: Entry, a: bool, b: bool, c: bool)
    requires MayBegin(s, t, e) && e.id !in s.vms
    ensures Runs(s, Begins(t, e.id, AllWell(a, b, c)), Created(s, t, e))
    ensures var s' := Created(s, t, e);
            && s'.vms == s.vms[e.id := e] && s'.forward == s.forward + [SourceRule(e)]
            && Held(s'.pool) == Held(s.pool) + {e.ip} && s'.tasks[t] == Finished && s'.takes == s.takes
  {
    AllocateRefinesSet(s.pool);
    CreateEnds(s, t, e, b, c);
    StartNext(s, t, e, s.forward + [SourceRule(e)], true);
    MakingStep(s, t, e, s.forward + [SourceRule(e)], StartVm, true, [b] + ([c] + []), Created(s, t, e));
    UpToStart(s, t, e, a, [true] + ([b] + ([c] + [])), Created(s, t, e));
  }

  // ----- Create, when a call fails -----

  /** Where a create fails; `undone` says whether its source rule could be removed again. */
  datatype Failure = AtTap | AtAttach | AtRule | AtStart(undone: bool)

  function FailureSteps(f: Failure, a: bool, b: bool, c: bool): seq<bool> {
    match f
    case AtTap => [a] + ([false] + ([c] + []))
    case AtAttach => [a] + ([true] + ([false] + ([c] + [])))
    case AtRule => [a] + ([true] + ([true] + ([false] + ([c] + []))))
    case AtStart(undone) => [a] + ([true] + ([true] + ([true] + ([false] + ([undone] + ([b] + ([c] + [])))))))
  }

  /** The state a create leaves that gave its address back with these rules in the chain. */
  function GivenBack(s: State, t: nat, e: Entry, forward: seq<Rule>, strays: set<Rule>): State
    requires s.pool.Valid()
  {
    Making(s, t, e, forward, Finished).(
      pool := Released(Allocated(s.pool).1, e.ip).1, frees := s.frees + multiset{e.id}, strays := strays)
  }

  lemma GivesBack(s: State, t: nat, e: Entry, forward: seq<Rule>, c: bool)
    requires s.pool.Valid()
    ensures Runs(Making(s, t, e, forward, Creating(GiveBack, e)), Advances(t, [c] + []), GivenBack(s, t, e, forward, s.strays))
  {
    var m := Making(s, t, e, forward, Creating(GiveBack, e));
    assert m.tasks[t := Finished] == s.tasks[t := Finished];
    Stays(GivenBack(s, t, e, forward, s.strays), t);
    MakingStep(s, t, e, forward, GiveBack, c, [], GivenBack(s, t, e, forward, s.strays));
  }

  /** Undoing a failed start: the rule goes, if it can, then the TAP device, then the address. */
  lemma Undoes(s: State, t: nat, e: Entry, undone: bool, b: bool, c: bool)
    requires s.pool.Valid()
    ensures var added := s.forward + [SourceRule(e)];
            var forward := if undone then WithoutFirst(added, SourceRule(e)) else added;
            var strays := if undone then s.strays else s.strays + {SourceRule(e)};
            Runs(Making(s, t, e, added, Creating(UndoRule, e)), Advances(t, [undone] + ([b] + ([c] + []))),
                 GivenBack(s, t, e, forward, strays))
  {
    var added := s.forward + [SourceRule(e)];
    var forward := if undone then WithoutFirst(added, SourceRule(e)) else added;
    var u := if undone then s else s.(strays := s.strays + {SourceRule(e)});
    GivesBack(u, t, e, forward, c);
    QuietNext(u, t, e, forward, b);
    MakingStep(u, t, e, forward, UndoTap, b, [c] + [], GivenBack(u, t, e, forward, u.strays));
    UndoneRule(s, t, e, added, undone, u, forward);
    MakingStep(s, t, e, added, UndoRule, undone, [b] + ([c] + []), GivenBack(u, t, e, forward, u.strays));
  }

  lemma UndoneRule(s: State, t: nat, e: Entry, added: seq<Rule>, undone: bool, u: State, forward: seq<Rule>)
    requires s.pool.Valid() && u == if undone then s else s.(strays := s.strays + {SourceRule(e)})
    requires forward == if undone then WithoutFirst(added, SourceRule(e)) else added
    ensures AdvanceCreating(Making(s, t, e, added, Creating(UndoRule, e)), t, UndoRule, e, undone)
         == Making(u, t, e, forward, Creating(UndoTap, e))
  {
    var m := Making(s, t, e, added, Creating(UndoRule, e));
    assert m.tasks[t := Creating(UndoTap, e)] == s.tasks[t := Creating(UndoTap, e)];
  }

  /** The rules in the chain after a failed create: those before it, and its own if it could not be removed. */
  ghost predicate RulesAfter(s: State, e: Entry, f: Failure, s': State) {
    if f == AtStart(false) then s'.forward == s.forward + [SourceRule(e)] && s'.strays == s.strays + {SourceRule(e)}
    else multiset(s'.forward) == multiset(s.forward) && s'.strays == s.strays
  }

  /** A create that failed leaves no VM, has given its address back once, and is over. */
  ghost predicate LeavesNothing(s: State, t: nat, e: Entry, f: Failure, s': State) {
    && s'.vms == s.vms && s'.takes == s.takes && s'.frees == s.frees + multiset{e.id}
    && s.pool.Valid() && s'.pool.Valid() && Held(s'.pool) == Held(s.pool)
    && t in s'.tasks && s'.tasks[t] == Finished && RulesAfter(s, e, f, s')
  }

  lemma GivenBackHolds(s: State, t: nat, e: Entry, forward: seq<Rule>, strays: set<Rule>)
    requires s.pool.Valid() && Allocated(s.pool).0 == Some(e.ip)
    ensures var s' := GivenBack(s, t, e, forward, strays);
            && s'.vms == s.vms && s'.takes == s.takes && s'.frees == s.frees + multiset{e.id}
            && s'.pool.Valid() && Held(s'.pool) == Held(s.pool) && s'.tasks[t] == Finished
  {
    AllocateRefinesSet(s.pool);
    ReleaseRefinesSet(Allocated(s.pool).1, e.ip);
    AddressesAreIndices(e.ip);
    assert Held(s.pool) + {e.ip} - {e.ip} == Held(s.pool);
  }

  /** A create with a failed call, from any state: no VM is registered, and what it took it gives back. */
  lemma CreateFails(s: State, t: nat, e: Entry, f: Failure, a: bool, b: bool, c: bool)
    requires MayBegin(s, t, e)
    ensures exists s' :: Runs(s, Begins(t, e.id, FailureSteps(f, a, b, c)), s') && LeavesNothing(s, t, e, f, s')
  {
    match f
    case AtStart(undone) => StartFails(s, t, e, undone, a, b, c);
    case _ => SetupFails(s, t, e, f, a, b, c);
  }

  lemma SetupFails(s: State, t: nat, e: Entry, f: Failure, a: bool, b: bool, c: bool)
    requires MayBegin(s, t, e) && !f.AtStart?
    ensures exists s' :: Runs(s, Begins(t, e.id, FailureSteps(f, a, b, c)), s') && LeavesNothing(s, t, e, f, s')
  {
    var end := GivenBack(s, t, e, s.forward, s.strays);
    GivenBackHolds(s, t, e, s.forward, s.strays);
    assert LeavesNothing(s, t, e, f, end);
    SetupFailsAt(s, t, e, f, a, b, c, end);
  }

  lemma SetupFailsAt(s: State, t: nat, e: Entry, f: Failure, a: bool, b: bool, c: bool, end: State)
    requires MayBegin(s, t, e) && !f.AtStart? && end == GivenBack(s, t, e, s.forward, s.strays)
    ensures Runs(s, Begins(t, e.id, FailureSteps(f, a, b, c)), end)
  {
    GivesBack(s, t, e, s.forward, c);
    var stage := if f.AtTap? then MakeTap else if f.AtAttach? then AttachTap else AddRule;
    SetupNext(s, t, e, s.forward, stage, false);
    MakingStep(s, t, e, s.forward, stage, false, [c] + [], end);
    match f
    case AtTap => UpToTap(s, t, e, a, [false] + ([c] + []), end);
    case AtAttach => UpToAttach(s, t, e, a, [false] + ([c] + []), end);
    case AtRule => UpToRule(s, t, e, a, [false] + ([c] + []), end);
  }

  lemma StartFails(s: State, t: nat, e: Entry, undone: bool, a: bool, b: bool, c: bool)
    requires MayBegin(s, t, e)
    ensures exists s' :: && Runs(s, Begins(t, e.id, FailureSteps(AtStart(undone), a, b, c)), s')
                         && LeavesNothing(s, t, e, AtStart(undone), s')
  {
    StartFailsRun(s, t, e, undone, a, b, c);
    StartFailsHolds(s, t, e, undone);
  }

  /** The state a create leaves whose start failed. */
  function Undone(s: State, t: nat, e: Entry, undone: bool): State
    requires s.pool.Valid()
  {
    var added := s.forward + [SourceRule(e)];
    if undone then GivenBack(s, t, e, WithoutFirst(added, SourceRule(e)), s.strays)
    else GivenBack(s, t, e, added, s.strays + {SourceRule(e)})
  }

  lemma StartFailsHolds(s: State, t: nat, e: Entry, undone: bool)
    requires MayBegin(s, t, e)
    ensures LeavesNothing(s, t, e, AtStart(undone), Undone(s, t, e, undone))
  {
    var added := s.forward + [SourceRule(e)];
    if undone {
      GivenBackHolds(s, t, e, WithoutFirst(added, SourceRule(e)), s.strays);
      AddedAndRemoved(s.forward, SourceRule(e));
    } else {
      GivenBackHolds(s, t, e, added, s.strays + {SourceRule(e)});
    }
  }

  lemma StartFailsRun(s: State, t: nat, e: Entry, undone: bool, a: bool, b: bool, c: bool)
    requires MayBegin(s, t, e)
    ensures Runs(s, Begins(t, e.id, FailureSteps(AtStart(undone), a, b, c)), Undone(s, t, e, undone))
  {
    var added := s.forward + [SourceRule(e)];
    var end := Undone(s, t, e, undone);
    Undoes(s, t, e, undone, b, c);
    StartNext(s, t, e, added, false);
    MakingStep(s, t, e, added, StartVm, false, [undone] + ([b] + ([c] + [])), end);
    UpToStart(s, t, e, a, [false] + ([undone] + ([b] + ([c] + []))), end);
  }

  lemma AddedAndRemoved(rules: seq<Rule>, r: Rule)
    ensures multiset(WithoutFirst(rules + [r], r)) == multiset(rules)
  {
    WithoutFirstCounts(rules + [r], r);
  }

  /** With no address left a create ends at once and changes nothing but its own record. */
  lemma CreateRefused(s: State, t: nat, id: VmId, a: bool)
    requires s.pool.Valid() && t !in s.tasks && FreshId(s, id) && Allocated(s.pool).0 == None
    ensures Runs(s, Begins(t, id, [a] + []), s.(used := s.used + {id}, tasks := s.tasks[t := Finished]))
  {
    var s1 := Put(s.(used := s.used + {id}), t, Requested(id));
    var end := s.(used := s.used + {id}, tasks := s.tasks[t := Finished]);
    assert s1.tasks[t := Finished] == s.tasks[t := Finished];
    Stays(end, t);
    Goes(s1, t, a, [], end, end);
    RunsFirst(s, Event(t, BeginCreate(id)), Advances(t, [a] + []), s1, end);
  }

  // ----- Delete -----

  /** State `s` with the registration of `e` taken out by task `t`. */
  function Taken(s: State, t: nat, e: Entry, task: Task): State {
    s.(vms := s.vms - {e.id}, takes := s.takes + multiset{e.id}, tasks := s.tasks[t := task])
  }

  function Deletes(t: nat, id: VmId, oks: seq<bool>): seq<Event> {
    [Event(t, BeginDelete(id))] + Advances(t, oks)
  }

  /** The state a teardown leaves: the VM, its address, and its rule, if that could be removed, are gone. */
  function TornDown(s: State, t: nat, e: Entry, dropped: bool, task: Task): State
    requires s.pool.Valid()
  {
    Put(FreeAddressOf(RemoveRule(Taken(s, t, e, task), e, dropped), e), t, task)
  }

  /** The four steps of a delete that has its entry. */
  lemma FourSteps(s1: State, t: nat, e: Entry, a: bool, dropped: bool, b: bool, c: bool,
                  s2: State, s3: State, s4: State, end: State)
    requires s1.pool.Valid() && Before(s1, t, Deleting(StopVm, e)) && s2 == Put(s1, t, Deleting(DropRule, e))
    requires s3 == Put(RemoveRule(s2, e, dropped), t, Deleting(DropTap, e)) && s4 == Put(s3, t, Deleting(FreeAddress, e))
    requires end == Put(FreeAddressOf(s4, e), t, Finished)
    ensures Runs(s1, Advances(t, [a] + ([dropped] + ([b] + ([c] + [])))), end)
  {
    Stays(end, t);
    Goes(s4, t, c, [], end, end);
    Goes(s3, t, b, [c] + [], s4, end);
    Goes(s2, t, dropped, [b] + ([c] + []), s3, end);
    Goes(s1, t, a, [dropped] + ([b] + ([c] + [])), s2, end);
  }

  lemma DeletingSteps(s: State, t: nat, e: Entry, a: bool, dropped: bool, b: bool, c: bool)
    requires s.pool.Valid()
    ensures Runs(Taken(s, t, e, Deleting(StopVm, e)), Advances(t, [a] + ([dropped] + ([b] + ([c] + [])))),
                 TornDown(s, t, e, dropped, Finished))
  {
    var end := TornDown(s, t, e, dropped, Finished);
    var s1 := Taken(s, t, e, Deleting(StopVm, e));
    var s2 := Put(s1, t, Deleting(DropRule, e));
    var s3 := Put(RemoveRule(s2, e, dropped), t, Deleting(DropTap, e));
    var s4 := Put(s3, t, Deleting(FreeAddress, e));
    assert Put(FreeAddressOf(s4, e), t, Finished) == end by {
      assert s4.tasks[t := Finished] == s.tasks[t := Finished];
      assert s.tasks[t := Finished][t := Finished] == s.tasks[t := Finished];
    }
    FourSteps(s1, t, e, a, dropped, b, c, s2, s3, s4, end);
  }

  function RuleGone(e: Entry, dropped: bool): multiset<Rule> {
    if dropped then multiset{SourceRule(e)} else multiset{}
  }

  lemma TornDownHolds(s: State, t: nat, e: Entry, dropped: bool, task: Task)
    requires s.pool.Valid()
    ensures var s' := TornDown(s, t, e, dropped, task);
            && s'.vms == s.vms - {e.id} && s'.pool.Valid() && Held(s'.pool) == Held(s.pool) - {e.ip}
            && s'.takes == s.takes + multiset{e.id} && s'.frees == s.frees + multiset{e.id}
            && multiset(s'.forward) == multiset(s.forward) - RuleGone(e, dropped)
            && t in s'.tasks && s'.tasks[t] == task
  {
    var s' := TornDown(s, t, e, dropped, task);
    assert s'.pool == Released(s.pool, e.ip).1 && s'.forward == RemoveRule(s, e, dropped).forward;
    FreedSet(s.pool, e.ip);
    RuleIsGone(s, e, dropped);
  }

  lemma FreedSet(p: Pool, ip: IpAddr)
    requires p.Valid()
    ensures Released(p, ip).1.Valid() && Held(Released(p, ip).1) == Held(p) - {ip}
  {
    ReleaseRefinesSet(p, ip);
  }

  lemma RuleIsGone(s: State, e: Entry, dropped: bool)
    ensures multiset(RemoveRule(s, e, dropped).forward) == multiset(s.forward) - RuleGone(e, dropped)
  {
    WithoutFirstCounts(s.forward, SourceRule(e));
  }

  /** A delete of a registered VM, from any state: the VM leaves the registry and its address is free again. */
  lemma DeleteSucceeds(s: State, t: nat, id: VmId, first: bool, a: bool, dropped: bool, b: bool, c: bool)
    requires s.pool.Valid() && t !in s.tasks && id in s.vms && s.vms[id].id == id
    ensures var s' := TornDown(s, t, s.vms[id], dropped, Finished);
            && Runs(s, Deletes(t, id, [first] + ([a] + ([dropped] + ([b] + ([c] + []))))), s')
            && s'.vms == s.vms - {id} && s'.pool.Valid() && Held(s'.pool) == Held(s.pool) - {s.vms[id].ip}
            && s'.takes == s.takes + multiset{id} && s'.frees == s.frees + multiset{id} && s'.tasks[t] == Finished
            && multiset(s'.forward) == multiset(s.forward) - RuleGone(s.vms[id], dropped)
  {
    TornDownHolds(s, t, s.vms[id], dropped, Finished);
    DeleteRuns(s, t, id, first, a, dropped, b, c);
  }

  lemma DeleteRuns(s: State, t: nat, id: VmId, first: bool, a: bool, dropped: bool, b: bool, c: bool)
    requires s.pool.Valid() && t !in s.tasks && id in s.vms && s.vms[id].id == id
    ensures Runs(s, Deletes(t, id, [first] + ([a] + ([dropped] + ([b] + ([c] + []))))),
                 TornDown(s, t, s.vms[id], dropped, Finished))
  {
    var e := s.vms[id];
    var end := TornDown(s, t, e, dropped, Finished);
    DeletingSteps(s, t, e, a, dropped, b, c);
    var s1 := Put(s, t, DeleteRequested(id));
    var s2 := Taken(s, t, e, Deleting(StopVm, e));
    assert AfterAdvance(s1, t, first) == s2 by {
      assert s1.tasks[t := Deleting(StopVm, e)] == s.tasks[t := Deleting(StopVm, e)];
    }
    Goes(s1, t, first, [a] + ([dropped] + ([b] + ([c] + []))), s2, end);
    RunsFirst(s, Event(t, BeginDelete(id)), Advances(t, [first] + ([a] + ([dropped] + ([b] + ([c] + []))))), s1, end);
  }

  // ----- Shutdown -----

  function Trues(n: nat): seq<bool> {
    if n == 0 then [] else [true] + Trues(n - 1)
  }

  /** One VM of the list, from its removal to the release of its address. */
  lemma CleanOne(s: State, t: nat, list: seq<Entry>, next: nat, rest: seq<bool>, end: State)
    requires s.pool.Valid() && next < |list| && Before(s, t, Cleaning(list, next, None))
    requires list[next].id in s.vms && s.vms[list[next].id] == list[next]
    requires Runs(TornDown(s, t, list[next], true, Cleaning(list, next + 1, None)), Advances(t, rest), end)
    ensures Runs(s, Advances(t, [true] + ([true] + ([true] + ([true] + ([true] + rest))))), end)
  {
    var e := list[next];
    var s1 := Taken(s, t, e, Cleaning(list, next, Some(StopVm)));
    var s2 := Put(s1, t, Cleaning(list, next, Some(DropRule)));
    var s3 := Put(RemoveRule(s2, e, true), t, Cleaning(list, next, Some(DropTap)));
    var s4 := Put(s3, t, Cleaning(list, next, Some(FreeAddress)));
    var s5 := TornDown(s, t, e, true, Cleaning(list, next + 1, None));
    CleanedOne(s, t, list, next, s4, s5);
    Goes(s4, t, true, rest, s5, end);
    Goes(s3, t, true, [true] + rest, s4, end);
    Goes(s2, t, true, [true] + ([true] + rest), s3, end);
    Goes(s1, t, true, [true] + ([true] + ([true] + rest)), s2, end);
    Goes(s, t, true, [true] + ([true] + ([true] + ([true] + rest))), s1, end);
  }

  lemma CleanedOne(s: State, t: nat, list: seq<Entry>, next: nat, s4: State, s5: State)
    requires s.pool.Valid() && next < |list|
    requires s4 == Put(Put(RemoveRule(Put(Taken(s, t, list[next], Cleaning(list, next, Some(StopVm))), t,
                                          Cleaning(list, next, Some(DropRule))), list[next], true), t,
                           Cleaning(list, next, Some(DropTap))), t, Cleaning(list, next, Some(FreeAddress)))
    requires s5 == TornDown(s, t, list[next], true, Cleaning(list, next + 1, None))
    ensures Put(FreeAddressOf(s4, list[next]), t, Cleaning(list, next + 1, None)) == s5
  {
    var task := Cleaning(list, next + 1, None);
    assert s4.tasks[t := task] == s.tasks[t := task];
    assert s.tasks[t := task][t := task] == s.tasks[t := task];
  }

  /** What a shutdown still has to do: the rest of its list is registered as listed, and nobody else is. */
  ghost predicate ToClean(s: State, t: nat, list: seq<Entry>, next: nat) {
    && s.pool.Valid() && Before(s, t, Cleaning(list, next, None)) && next <= |list|
    && (forall i :: next <= i < |list| ==> list[i].id in s.vms && s.vms[list[i].id] == list[i])
    && (forall i, j :: next <= i < j < |list| ==> list[i].id != list[j].id)
    && (forall id :: id in s.vms ==> exists i :: next <= i < |list| && list[i].id == id)
  }

  ghost function Addresses(vms: Vms): set<IpAddr> {
    set id | id in vms :: vms[id].ip
  }

  /** No VM is left, and the addresses of the VMs, no others, have been freed, each once. */
  ghost predicate CleanedUp(vms: Vms, held: set<IpAddr>, takes: multiset<VmId>, frees: multiset<VmId>, t: nat, end: State) {
    && end.vms == map[] && t in end.tasks && end.tasks[t] == Finished && end.pool.Valid()
    && Held(end.pool) == held - Addresses(vms)
    && end.takes == takes + multiset(vms.Keys) && end.frees == frees + multiset(vms.Keys)
  }

  lemma CleanNext(s: State, t: nat, list: seq<Entry>, next: nat, s1: State)
    requires ToClean(s, t, list, next) && next < |list|
    requires s1 == TornDown(s, t, list[next], true, Cleaning(list, next + 1, None))
    ensures ToClean(s1, t, list, next + 1)
  {
    TornDownHolds(s, t, list[next], true, Cleaning(list, next + 1, None));
    forall id | id in s1.vms
      ensures exists i :: next + 1 <= i < |list| && list[i].id == id
    {
      var i :| next <= i < |list| && list[i].id == id;
      assert i != next;
    }
  }

  lemma OneVmMore(vms: Vms, e: Entry)
    requires e.id in vms && vms[e.id] == e
    ensures Addresses(vms) == Addresses(vms - {e.id}) + {e.ip}
    ensures multiset(vms.Keys) == multiset{e.id} + multiset((vms - {e.id}).Keys)
  {
    var less := vms - {e.id};
    assert vms.Keys == less.Keys + {e.id} && e.id !in less.Keys;
    forall ip | ip in Addresses(vms)
      ensures ip in Addresses(less) + {e.ip}
    {
      var id :| id in vms && vms[id].ip == ip;
      assert id == e.id || (id in less && less[id].ip == ip);
    }
  }

  lemma CleanedNext(vms: Vms, held: set<IpAddr>, takes: multiset<VmId>, frees: multiset<VmId>, t: nat, e: Entry, end: State)
    requires e.id in vms && vms[e.id] == e
    requires CleanedUp(vms - {e.id}, held - {e.ip}, takes + multiset{e.id}, frees + multiset{e.id}, t, end)
    ensures CleanedUp(vms, held, takes, frees, t, end)
  {
    OneVmMore(vms, e);
  }

  /** Advancing task `t` `n` times cleans up. */
  ghost predicate CleansUp(s: State, t: nat, n: nat) {
    s.pool.Valid() && exists end :: CleansUpTo(s, t, n, end)
  }

  ghost predicate CleansUpTo(s: State, t: nat, n: nat, end: State)
    requires s.pool.Valid()
  {
    Runs(s, Advances(t, Trues(n)), end) && CleanedUp(s.vms, Held(s.pool), s.takes, s.frees, t, end)
  }

  lemma CleanLast(s: State, t: nat, list: seq<Entry>)
    requires ToClean(s, t, list, |list|)
    ensures CleansUp(s, t, 1)
  {
    var end := AdvanceCleaning(s, t, list, |list|, None, true);
    assert s.vms == map[];
    assert Addresses(s.vms) == {};
    Stays(end, t);
    Goes(s, t, true, [], end, end);
    assert Trues(1) == [true] + [] by { assert Trues(0) == []; }
    assert CleansUpTo(s, t, 1, end);
  }

  lemma CleanRest(s: State, t: nat, list: seq<Entry>, next: nat, s1: State, n: nat)
    requires s.pool.Valid() && next < |list| && Before(s, t, Cleaning(list, next, None))
    requires list[next].id in s.vms && s.vms[list[next].id] == list[next]
    requires s1 == TornDown(s, t, list[next], true, Cleaning(list, next + 1, None)) && CleansUp(s1, t, n)
    ensures CleansUp(s, t, n + 5)
  {
    var end :| CleansUpTo(s1, t, n, end);
    CleanOne(s, t, list, next, Trues(n), end);
    FiveMore(n);
    TornDownHolds(s, t, list[next], true, Cleaning(list, next + 1, None));
    CleanedNext(s.vms, Held(s.pool), s.takes, s.frees, t, list[next], end);
    assert CleansUpTo(s, t, n + 5, end);
  }

  lemma CleanAfterNext(s: State, t: nat, list: seq<Entry>, next: nat, s1: State, n: nat)
    requires ToClean(s, t, list, next) && next < |list|
    requires s1 == TornDown(s, t, list[next], true, Cleaning(list, next + 1, None)) && CleansUp(s1, t, n)
    ensures CleansUp(s, t, n + 5)
  {
    CleanRest(s, t, list, next, s1, n);
  }

  lemma {:induction false} CleanAll(s: State, t: nat, list: seq<Entry>, next: nat, left: nat)
    requires ToClean(s, t, list, next) && left == |list| - next
    ensures CleansUp(s, t, 5 * left + 1)
    decreases left
  {
    if left == 0 {
      CleanLast(s, t, list);
    } else {
      var s1 := TornDown(s, t, list[next], true, Cleaning(list, next + 1, None));
      CleanNext(s, t, list, next, s1);
      CleanAll(s1, t, list, next + 1, left - 1);
      CleanAfterNext(s, t, list, next, s1, 5 * (left - 1) + 1);
    }
  }

  lemma FiveMore(n: nat)
    ensures Trues(n + 5) == [true] + ([true] + ([true] + ([true] + ([true] + Trues(n)))))
  {
    assert Trues(n + 5) == [true] + Trues(n + 4);
    assert Trues(n + 4) == [true] + Trues(n + 3);
    assert Trues(n + 3) == [true] + Trues(n + 2);
    assert Trues(n + 2) == [true] + Trues(n + 1);
  }

  lemma ShutdownBegins(s: State, t: nat, order: seq<VmId>, list: seq<Entry>)
    requires Taps(s) && s.pool.Valid() && Enumerates(order, s.vms) && list == Listing(order, s.vms)
    ensures ToClean(Put(s, t, Cleaning(list, 0, None)), t, list, 0)
  {
    forall id | id in s.vms
      ensures exists i :: 0 <= i < |list| && list[i].id == id
    {
      var i :| 0 <= i < |order| && order[i] == id;
      assert list[i].id == id;
    }
    forall i, j | 0 <= i < j < |list|
      ensures list[i].id != list[j].id
    {
      assert order[i] != order[j];
    }
  }

  /** A shutdown that begins in `s` and is advanced `n` times cleans up. */
  ghost predicate ShutsDown(s: State, t: nat, order: seq<VmId>, n: nat) {
    s.pool.Valid() && exists end :: && Runs(s, [Event(t, BeginShutdown(order))] + Advances(t, Trues(n)), end)
                                    && CleanedUp(s.vms, Held(s.pool), s.takes, s.frees, t, end)
  }

  lemma ShutdownRuns(s: State, t: nat, order: seq<VmId>, list: seq<Entry>, n: nat)
    requires Enabled(s, t, BeginShutdown(order)) && list == Listing(order, s.vms)
    requires CleansUp(Put(s, t, Cleaning(list, 0, None)), t, n)
    ensures ShutsDown(s, t, order, n)
  {
    var s1 := Put(s, t, Cleaning(list, 0, None));
    var end :| CleansUpTo(s1, t, n, end);
    RunsFirst(s, Event(t, BeginShutdown(order)), Advances(t, Trues(n)), s1, end);
  }

  lemma ShutdownCleans(s: State, t: nat, order: seq<VmId>, list: seq<Entry>, s1: State)
    requires Taps(s) && s.pool.Valid() && Enumerates(order, s.vms) && list == Listing(order, s.vms)
    requires s1 == Put(s, t, Cleaning(list, 0, None))
    ensures CleansUp(s1, t, 5 * |order| + 1)
  {
    ShutdownBegins(s, t, order, list);
    CleanAll(s1, t, list, 0, |list|);
  }

  /** A shutdown from any reachable state: every VM is gone and every VM's address is free again. */
  lemma ShutdownSucceeds(s: State, t: nat, order: seq<VmId>)
    requires Taps(s) && s.pool.Valid() && t !in s.tasks && Enumerates(order, s.vms)
    ensures ShutsDown(s, t, order, 5 * |order| + 1)
  {
    var list := Listing(order, s.vms);
    ShutdownCleans(s, t, order, list, Put(s, t, Cleaning(list, 0, None)));
    ShutdownRuns(s, t, order, list, 5 * |order| + 1);
  }

  /** The handlers do all this from every state any run can reach. */
  lemma ReachableServes(s: State, id: VmId)
    requires Reachable(s)
    ensures s.pool.Valid() && Taps(s) && (id in s.vms ==> s.vms[id].id == id)
    ensures FreshId(s, id) ==> id !in s.vms
  {
    ReachableInv(s);
    var l :| Agrees(s, l) && Sound(l);
    RegisteredIsUsed(s, l, id);
  }

  lemma RegisteredIsUsed(s: State, l: Ledger, id: VmId)
    requires VmsAgree(s.vms, l.own) && Identified(l) && l.used == s.used && Taps(s)
    ensures id in s.vms ==> id in s.used
  {
  }
}
