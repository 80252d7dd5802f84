/**
 What every interleaving of the provisioning handlers keeps. Each step of a handler is one operation
 of the ownership ledger, so the ledger stays sound; the shutdown lists and the source rules of the
 FORWARD chain are tied to it.
 */
module ProvisioningProofs {
  import opened Options
  import opened IpAllocation
  import opened VmRegistration
  import opened Iptables
  import opened OwnershipLedger
  import opened Provisioning

  // ----- The ledger behind a state -----

  ghost function RightOf(task: Task): Right {
    if task.Creating? then Made else if task.Abandoned? then Lost else Taken
  }

  ghost predicate VmsAgree(vms: Vms, own: map<Owner, Holding>) {
    && (forall id :: id in vms <==> Vm(id) in own)
    && (forall id :: id in vms ==> own[Vm(id)] == Holding(vms[id], Registered))
  }

  ghost predicate TasksAgree(tasks: map<nat, Task>, own: map<Owner, Holding>) {
    && (forall t :: Handler(t) in own <==> t in tasks && Claim(tasks[t]).Some?)
    && (forall t :: Handler(t) in own ==> own[Handler(t)] == Holding(Claim(tasks[t]).value, RightOf(tasks[t])))
  }

  ghost predicate WaitingAgree(tasks: map<nat, Task>, pending: map<nat, VmId>) {
    && (forall t :: t in pending <==> t in tasks && tasks[t].Requested?)
    && (forall t :: t in pending ==> pending[t] == tasks[t].id)
  }

  /** `l` is the ledger of state `s`. */
  ghost predicate Agrees(s: State, l: Ledger) {
    && s.pool.Valid() && l.held == Held(s.pool)
    && VmsAgree(s.vms, l.own) && TasksAgree(s.tasks, l.own) && WaitingAgree(s.tasks, l.pending)
    && l.used == s.used && l.takes == s.takes && l.frees == s.frees
  }

  // ----- The invariant -----

  /** Each held address has exactly one owner, by a sound ledger. */
  ghost predicate Balanced(s: State) {
    exists l :: Agrees(s, l) && Sound(l)
  }

  /** TAP names follow the identifiers, and tell them apart. */
  ghost predicate Taps(s: State) {
    && (forall id :: id in s.vms ==> s.vms[id].id == id && s.vms[id].tap == TapName(id))
    && (forall t :: t in s.tasks && Claim(s.tasks[t]).Some? ==> Claim(s.tasks[t]).value.tap == TapName(Claim(s.tasks[t]).value.id))
    && (forall u, v :: u in s.used && v in s.used && TapName(u) == TapName(v) ==> u == v)
  }

  /** A listed VM is still registered as it was listed, or has been taken, once and for all. */
  ghost predicate ListedOk(s: State, e: Entry) {
    && e.id in s.used
    && if e.id in s.vms then s.vms[e.id] == e else s.takes[e.id] == 1
  }

  ghost predicate CleaningOk(s: State, list: seq<Entry>, next: nat, busy: Option<TeardownStage>) {
    && next <= |list|
    && (busy.Some? ==> next < |list|)
    && (forall i :: 0 <= i < |list| ==> ListedOk(s, list[i]))
    && (forall i :: 0 <= i < next ==> list[i].id !in s.vms)
    && (busy.Some? ==> list[next].id !in s.vms)
  }

  ghost predicate Lists(s: State) {
    forall t :: t in s.tasks && s.tasks[t].Cleaning? ==>
                  CleaningOk(s, s.tasks[t].list, s.tasks[t].next, s.tasks[t].busy)
  }

  /** The source rule a task should have in the chain. */
  ghost function RuleOf(task: Task): Option<Rule> {
    if HasRule(task) && Claim(task).Some? then Some(SourceRule(Claim(task).value)) else None
  }

  ghost predicate VmWants(vms: Vms, id: VmId, r: Rule) {
    id in vms && SourceRule(vms[id]) == r
  }

  ghost predicate TaskWants(tasks: map<nat, Task>, t: nat, r: Rule) {
    t in tasks && RuleOf(tasks[t]) == Some(r)
  }

  /** Some owner should have rule `r` in the chain. */
  ghost predicate Wanted(s: State, r: Rule) {
    (exists id :: VmWants(s.vms, id, r)) || (exists t :: TaskWants(s.tasks, t, r))
  }

  /** A creator that has not added its source rule yet. */
  ghost predicate BeforeRule(task: Task, id: VmId) {
    || task == Requested(id)
    || (task.Creating? && task.entry.id == id && (task.stage.MakeTap? || task.stage.AttachTap? || task.stage.AddRule?))
  }

  /** The source rules in the chain are, once each, those some owner should have and the strays. */
  ghost predicate Rules(s: State) {
    && (forall r: Rule :: r.RequireSource? ==>
          multiset(s.forward)[r] == if Wanted(s, r) || r in s.strays then 1 else 0)
    && (forall r :: r in s.strays ==> !Wanted(s, r))
    && (forall r :: r in s.strays ==> r.RequireSource? && exists u :: u in s.used && r.tap == TapName(u))
    && (forall t, id, r :: t in s.tasks && BeforeRule(s.tasks[t], id) && r in s.strays ==> r.tap != TapName(id))
  }

  ghost predicate Inv(s: State) {
    Balanced(s) && Taps(s) && Lists(s) && Rules(s)
  }

  /** A freshly started server over a host chain that holds no source rules. */
  ghost predicate Init(s: State) {
    && s.pool == EmptyPool() && s.vms == map[] && s.tasks == map[] && s.used == {}
    && s.takes == multiset{} && s.frees == multiset{} && s.strays == {}
    && forall r :: r in s.forward ==> !r.RequireSource?
  }

  lemma InitHolds(s: State)
    requires Init(s)
    ensures Inv(s)
  {
    InitLedger(s);
    InitRules(s);
  }

  lemma InitLedger(s: State)
    requires s.pool == EmptyPool() && s.vms == map[] && s.tasks == map[] && s.used == {}
    requires s.takes == multiset{} && s.frees == multiset{}
    ensures Balanced(s)
  {
    var l := Ledger({}, map[], map[], {}, multiset{}, multiset{});
    assert Agrees(s, l) by { assert Held(s.pool) == {}; }
    assert Sound(l);
  }

  lemma InitRules(s: State)
    requires s.vms == map[] && s.tasks == map[] && s.strays == {}
    requires forall r :: r in s.forward ==> !r.RequireSource?
    ensures Rules(s)
  {
    forall r: Rule | r.RequireSource? ensures multiset(s.forward)[r] == 0 {
      assert r !in s.forward;
    }
  }

  // ----- Each step is a ledger operation -----

  ghost predicate Before(s: State, t: nat, task: Task) {
    t in s.tasks && s.tasks[t] == task
  }

  ghost predicate SameBooks(s: State, s': State) {
    s'.pool == s.pool && s'.used == s.used && s'.takes == s.takes && s'.frees == s.frees
  }

  /** A step in which a handler keeps the entry it has, or goes on without one. */
  lemma QuietAgrees(s: State, l: Ledger, t: nat, task: Task, s': State)
    requires Agrees(s, l) && SameBooks(s, s') && s'.vms == s.vms && s'.tasks == s.tasks[t := task]
    requires !task.Requested? && (t in s.tasks ==> !s.tasks[t].Requested?)
    requires Claim(task) == if t in s.tasks then Claim(s.tasks[t]) else None
    requires Claim(task).Some? ==> RightOf(task) == RightOf(s.tasks[t])
    ensures Agrees(s', l)
  {
  }

  lemma DismissAgrees(s: State, l: Ledger, t: nat, task: Task, s': State)
    requires Agrees(s, l) && SameBooks(s, s') && s'.vms == s.vms && s'.tasks == s.tasks[t := task]
    requires Claim(task) == None && !task.Requested? && t in s.tasks && s.tasks[t].Requested?
    ensures Agrees(s', Dismiss(l, t))
  {
  }

  lemma BeginAgrees(s: State, l: Ledger, t: nat, id: VmId, s': State)
    requires Agrees(s, l) && t !in s.tasks && s' == Put(s.(used := s.used + {id}), t, Requested(id))
    ensures Agrees(s', Reserve(l, t, id))
  {
  }

  lemma GrantAgrees(s: State, l: Ledger, t: nat, e: Entry, pool: Pool, s': State)
    requires Agrees(s, l) && pool.Valid() && Held(pool) == Held(s.pool) + {e.ip}
    requires s' == Put(s.(pool := pool), t, Creating(MakeTap, e))
    ensures Agrees(s', Grant(l, t, e))
  {
  }

  lemma EnrollAgrees(s: State, l: Ledger, t: nat, e: Entry, s': State)
    requires Agrees(s, l) && t in s.tasks && !s.tasks[t].Requested?
    requires s' == Put(s.(vms := s.vms[e.id := e]), t, Finished)
    ensures Agrees(s', Enroll(l, t, e))
  {
  }

  lemma TakeAgrees(s: State, l: Ledger, t: nat, e: Entry, task: Task, s': State)
    requires Agrees(s, l) && Claim(task) == Some(e) && RightOf(task) == Taken && !task.Requested?
    requires t in s.tasks && !s.tasks[t].Requested?
    requires s' == Put(s.(vms := s.vms - {e.id}, takes := s.takes + multiset{e.id}), t, task)
    ensures Agrees(s', TakeOver(l, t, e))
  {
  }

  lemma FreeAgrees(s: State, l: Ledger, t: nat, e: Entry, task: Task, s': State)
    requires Agrees(s, l) && Claim(task) == None && !task.Requested?
    requires t in s.tasks && !s.tasks[t].Requested? && s' == Put(FreeAddressOf(s, e), t, task)
    ensures Agrees(s', Free(l, t, e))
  {
    ReleaseRefinesSet(s.pool, e.ip);
  }

  lemma LoseAgrees(s: State, l: Ledger, t: nat, e: Entry, rule: bool, s': State)
    requires Agrees(s, l) && t in s.tasks && !s.tasks[t].Requested? && s' == Put(s, t, Abandoned(e, rule))
    ensures Agrees(s', Lose(l, t, e))
  {
  }

  // ----- so every step keeps the books balanced -----

  lemma BalancedRequested(s: State, l: Ledger, t: nat, id: VmId, s': State)
    requires Agrees(s, l) && Sound(l) && Before(s, t, Requested(id)) && s' == AdvanceRequested(s, t, id)
    ensures Balanced(s')
  {
    AllocateRefinesSet(s.pool);
    var (r, pool) := Allocated(s.pool);
    if r.Some? {
      var e := Entry(id, r.value, TapName(id));
      GrantAgrees(s, l, t, e, pool, s');
      GrantSound(l, t, e);
    } else {
      DismissAgrees(s, l, t, Finished, s');
      DismissSound(l, t);
    }
  }

  lemma BalancedRegister(s: State, l: Ledger, t: nat, e: Entry, s': State)
    requires Agrees(s, l) && Sound(l) && Before(s, t, Creating(Register, e))
    requires s' == AdvanceCreating(s, t, Register, e, true)
    ensures Balanced(s')
  {
    assert Handler(t) in l.own && l.own[Handler(t)] == Holding(e, Made);
    if e.id in s.vms {
      LoseAgrees(s, l, t, e, true, s');
      LoseSound(l, t, e);
    } else {
      EnrollAgrees(s, l, t, e, s');
      EnrollSound(l, t, e);
    }
  }

  lemma BalancedGiveBack(s: State, l: Ledger, t: nat, e: Entry, s': State)
    requires Agrees(s, l) && Sound(l) && Before(s, t, Creating(GiveBack, e))
    requires s' == AdvanceCreating(s, t, GiveBack, e, true)
    ensures Balanced(s')
  {
    FreeAgrees(s, l, t, e, Finished, s');
    FreeSound(l, t, e);
  }

  lemma BalancedCreating(s: State, l: Ledger, t: nat, stage: CreateStage, e: Entry, ok: bool, s': State)
    requires Agrees(s, l) && Sound(l) && Before(s, t, Creating(stage, e)) && s' == AdvanceCreating(s, t, stage, e, ok)
    ensures Balanced(s')
  {
    match stage
    case GiveBack => BalancedGiveBack(s, l, t, e, s');
    case Register => BalancedRegister(s, l, t, e, s');
    case _ =>
      BuildingIsQuiet(s, t, stage, e, ok, s');
      BalancedQuiet(s, l, t, s');
  }

  lemma BuildingIsQuiet(s: State, t: nat, stage: CreateStage, e: Entry, ok: bool, s': State)
    requires s.pool.Valid() && Before(s, t, Creating(stage, e)) && s' == AdvanceCreating(s, t, stage, e, ok)
    requires !stage.GiveBack? && !stage.Register?
    ensures SameBooks(s, s') && s'.vms == s.vms
    ensures t in s'.tasks && s'.tasks == s.tasks[t := s'.tasks[t]]
    ensures s'.tasks[t].Creating? && s'.tasks[t].entry == e
  {
  }

  lemma BalancedQuiet(s: State, l: Ledger, t: nat, s': State)
    requires Agrees(s, l) && Sound(l) && SameBooks(s, s') && s'.vms == s.vms
    requires t in s.tasks && t in s'.tasks && s'.tasks == s.tasks[t := s'.tasks[t]]
    requires !s'.tasks[t].Requested? && !s.tasks[t].Requested?
    requires Claim(s'.tasks[t]) == Claim(s.tasks[t])
    requires Claim(s'.tasks[t]).Some? ==> RightOf(s'.tasks[t]) == RightOf(s.tasks[t])
    ensures Balanced(s')
  {
    QuietAgrees(s, l, t, s'.tasks[t], s');
  }

  lemma BalancedTake(s: State, l: Ledger, t: nat, id: VmId, task: Task, s': State)
    requires Agrees(s, l) && Sound(l) && t in s.tasks && !s.tasks[t].Requested? && Claim(s.tasks[t]) == None
    requires id in s.vms && Claim(task) == Some(s.vms[id]) && RightOf(task) == Taken && !task.Requested?
    requires s' == Put(Take(s, id).1, t, task)
    ensures Balanced(s')
  {
    assert Handler(t) !in l.own && Vm(id) in l.own && l.own[Vm(id)].entry.id == id;
    TakeAgrees(s, l, t, s.vms[id], task, s');
    TakeOverSound(l, t, s.vms[id]);
  }

  lemma BalancedDeleting(s: State, l: Ledger, t: nat, step: TeardownStage, e: Entry, ok: bool, s': State)
    requires Agrees(s, l) && Sound(l) && Before(s, t, Deleting(step, e)) && s' == AdvanceDeleting(s, t, step, e, ok)
    ensures Balanced(s')
  {
    if step.FreeAddress? {
      FreeAgrees(s, l, t, e, Finished, s');
      FreeSound(l, t, e);
    } else {
      BalancedQuiet(s, l, t, s');
    }
  }

  /** Shutdown between two VMs of its list. */
  lemma BalancedIdle(s: State, l: Ledger, t: nat, list: seq<Entry>, next: nat, ok: bool, s': State)
    requires Agrees(s, l) && Sound(l) && Before(s, t, Cleaning(list, next, None))
    requires next < |list| ==> ListedOk(s, list[next])
    requires s' == AdvanceCleaning(s, t, list, next, None, ok)
    ensures Balanced(s')
  {
    if next < |list| && list[next].id in s.vms {
      BalancedTake(s, l, t, list[next].id, Cleaning(list, next, Some(StopVm)), s');
    } else {
      BalancedQuiet(s, l, t, s');
    }
  }

  /** Shutdown tearing down one VM of its list. */
  lemma BalancedBusy(s: State, l: Ledger, t: nat, list: seq<Entry>, next: nat, step: TeardownStage, ok: bool, s': State)
    requires Agrees(s, l) && Sound(l) && Before(s, t, Cleaning(list, next, Some(step))) && next < |list|
    requires s' == AdvanceCleaning(s, t, list, next, Some(step), ok)
    ensures Balanced(s')
  {
    if step.FreeAddress? {
      FreeAgrees(s, l, t, list[next], Cleaning(list, next + 1, None), s');
      FreeSound(l, t, list[next]);
    } else {
      BalancedQuiet(s, l, t, s');
    }
  }

  lemma BalancedCancel(s: State, l: Ledger, t: nat, s': State)
    requires Agrees(s, l) && Sound(l) && t in s.tasks && !s.tasks[t].Abandoned? && s' == After(s, t, Cancel)
    ensures Balanced(s')
  {
    var task := s.tasks[t];
    if Claim(task).Some? {
      LoseAgrees(s, l, t, Claim(task).value, HasRule(task), s');
      LoseSound(l, t, Claim(task).value);
    } else if task.Requested? {
      DismissAgrees(s, l, t, Finished, s');
      DismissSound(l, t);
    } else {
      QuietAgrees(s, l, t, Finished, s');
    }
  }

  lemma BalancedBegin(s: State, l: Ledger, t: nat, a: Action, s': State)
    requires Agrees(s, l) && Sound(l) && Enabled(s, t, a) && s' == After(s, t, a)
    requires a.BeginCreate? || a.BeginDelete? || a.BeginShutdown?
    ensures Balanced(s')
  {
    if a.BeginCreate? {
      BeginAgrees(s, l, t, a.id, s');
      ReserveSound(l, t, a.id);
    } else {
      QuietAgrees(s, l, t, s'.tasks[t], s');
    }
  }

  lemma BalancedDelete(s: State, l: Ledger, t: nat, id: VmId, s': State)
    requires Agrees(s, l) && Sound(l) && Before(s, t, DeleteRequested(id)) && s' == AfterAdvance(s, t, true)
    ensures Balanced(s')
  {
    if id in s.vms {
      BalancedTake(s, l, t, id, Deleting(StopVm, s.vms[id]), s');
    } else {
      QuietAgrees(s, l, t, Finished, s');
    }
  }

  lemma BalancedAdvance(s: State, l: Ledger, t: nat, ok: bool, s': State)
    requires Agrees(s, l) && Sound(l) && Lists(s) && Enabled(s, t, Advance(ok)) && s' == AfterAdvance(s, t, ok)
    ensures Balanced(s')
  {
    match s.tasks[t]
    case Requested(id) => BalancedRequested(s, l, t, id, s');
    case Creating(stage, e) => BalancedCreating(s, l, t, stage, e, ok, s');
    case DeleteRequested(id) => BalancedDelete(s, l, t, id, s');
    case Deleting(step, e) => BalancedDeleting(s, l, t, step, e, ok, s');
    case Cleaning(list, next, busy) =>
      match busy
      case None => BalancedIdle(s, l, t, list, next, ok, s');
      case Some(step) => BalancedBusy(s, l, t, list, next, step, ok, s');
  }

  lemma BalancedStep(s: State, t: nat, a: Action, s': State)
    requires Balanced(s) && Lists(s) && Enabled(s, t, a) && s' == After(s, t, a)
    ensures Balanced(s')
  {
    var l :| Agrees(s, l) && Sound(l);
    match a
    case Advance(ok) => BalancedAdvance(s, l, t, ok, s');
    case Cancel => BalancedCancel(s, l, t, s');
    case _ => BalancedBegin(s, l, t, a, s');
  }

  // ----- What a step does to the registry -----

  ghost predicate Enrolls(s: State, t: nat, s': State) {
    && t in s.tasks && s.tasks[t].Creating? && s.tasks[t].entry.id !in s.vms
    && s'.vms == s.vms[s.tasks[t].entry.id := s.tasks[t].entry] && s'.takes == s.takes
  }

  ghost predicate TakesOut(s: State, id: VmId, s': State) {
    id in s.vms && s'.vms == s.vms - {id} && s'.takes == s.takes + multiset{id}
  }

  ghost predicate NamesNewVm(s: State, s': State) {
    s'.used == s.used || exists id :: FreshId(s, id) && s'.used == s.used + {id}
  }

  /** A step changes one task and at most one registration; a new claim comes from the pool or the registry. */
  ghost predicate Local(s: State, t: nat, s': State) {
    && t in s'.tasks && s'.tasks == s.tasks[t := s'.tasks[t]] && NamesNewVm(s, s')
    && ((s'.vms == s.vms && s'.takes == s.takes) || Enrolls(s, t, s') || exists id :: TakesOut(s, id, s'))
    && (Claim(s'.tasks[t]).Some? ==> ClaimStep(s, t, Claim(s'.tasks[t]).value))
  }

  ghost predicate ClaimStep(s: State, t: nat, e: Entry) {
    || (t in s.tasks && Claim(s.tasks[t]) == Some(e))
    || e.tap == TapName(e.id)
    || (exists id :: id in s.vms && s.vms[id] == e)
  }

  lemma LocalCreating(s: State, t: nat, stage: CreateStage, e: Entry, ok: bool, s': State)
    requires s.pool.Valid() && Before(s, t, Creating(stage, e)) && s' == AdvanceCreating(s, t, stage, e, ok)
    ensures Local(s, t, s')
  {
  }

  lemma LocalDelete(s: State, t: nat, id: VmId, s': State)
    requires s.pool.Valid() && Before(s, t, DeleteRequested(id)) && s' == AfterAdvance(s, t, true)
    ensures Local(s, t, s')
  {
    assert id in s.vms ==> TakesOut(s, id, s');
  }

  lemma LocalCleaning(s: State, t: nat, list: seq<Entry>, next: nat, busy: Option<TeardownStage>, ok: bool, s': State)
    requires s.pool.Valid() && Before(s, t, Cleaning(list, next, busy)) && s' == AdvanceCleaning(s, t, list, next, busy, ok)
    requires next < |list| ==> ListedOk(s, list[next])
    ensures Local(s, t, s')
  {
    if next < |list| && busy.None? && list[next].id in s.vms {
      LocalTake(s, t, list[next].id, Cleaning(list, next, Some(StopVm)), s');
    } else {
      LocalQuiet(s, t, s');
    }
  }

  lemma LocalTake(s: State, t: nat, id: VmId, task: Task, s': State)
    requires t in s.tasks && id in s.vms && s' == Put(Take(s, id).1, t, task) && Claim(task) == Some(s.vms[id])
    ensures Local(s, t, s')
  {
    assert TakesOut(s, id, s');
  }

  lemma LocalQuiet(s: State, t: nat, s': State)
    requires t in s.tasks && t in s'.tasks && s'.tasks == s.tasks[t := s'.tasks[t]]
    requires s'.vms == s.vms && s'.takes == s.takes && s'.used == s.used
    requires Claim(s'.tasks[t]).None? || Claim(s'.tasks[t]) == Claim(s.tasks[t])
    ensures Local(s, t, s')
  {
  }

  lemma LocalRequested(s: State, t: nat, id: VmId, s': State)
    requires s.pool.Valid() && Before(s, t, Requested(id)) && s' == AdvanceRequested(s, t, id)
    ensures Local(s, t, s')
  {
  }

  lemma LocalDeleting(s: State, t: nat, step: TeardownStage, e: Entry, ok: bool, s': State)
    requires s.pool.Valid() && Before(s, t, Deleting(step, e)) && s' == AdvanceDeleting(s, t, step, e, ok)
    ensures Local(s, t, s')
  {
    LocalQuiet(s, t, s');
  }

  lemma LocalAdvance(s: State, t: nat, ok: bool, s': State)
    requires s.pool.Valid() && Lists(s) && Enabled(s, t, Advance(ok)) && s' == AfterAdvance(s, t, ok)
    ensures Local(s, t, s')
  {
    match s.tasks[t]
    case Requested(id) => LocalRequested(s, t, id, s');
    case Creating(stage, e) => LocalCreating(s, t, stage, e, ok, s');
    case DeleteRequested(id) => LocalDelete(s, t, id, s');
    case Deleting(step, e) => LocalDeleting(s, t, step, e, ok, s');
    case Cleaning(list, next, busy) =>
      assert CleaningOk(s, list, next, busy);
      LocalCleaning(s, t, list, next, busy, ok, s');
  }

  lemma LocalStep(s: State, t: nat, a: Action, s': State)
    requires s.pool.Valid() && Lists(s) && Enabled(s, t, a) && s' == After(s, t, a)
    ensures Local(s, t, s')
  {
    if a.Advance? {
      LocalAdvance(s, t, a.ok, s');
    }
  }

  // ----- TAP names and shutdown lists -----

  lemma TapsStep(s: State, t: nat, s': State)
    requires Taps(s) && Local(s, t, s')
    ensures Taps(s')
  {
  }

  /** A VM that was in the registry has not been taken, nor has one that is still being created. */
  lemma NotTakenYet(s: State)
    requires Balanced(s)
    ensures forall id :: id in s.vms ==> s.takes[id] == 0 && s.vms[id].id == id && id in s.used
    ensures forall t :: t in s.tasks && s.tasks[t].Creating? ==> s.takes[s.tasks[t].entry.id] == 0
  {
    var l :| Agrees(s, l) && Sound(l);
    forall id | id in s.vms ensures s.takes[id] == 0 && s.vms[id].id == id && id in s.used {
      assert CountedHolding(l, l.own[Vm(id)]);
    }
    forall t | t in s.tasks && s.tasks[t].Creating? ensures s.takes[s.tasks[t].entry.id] == 0 {
      assert CountedHolding(l, l.own[Handler(t)]);
    }
  }

  /** What was true of a listed VM stays true of it. */
  ghost predicate Survives(s: State, s': State) {
    forall e :: ListedOk(s, e) ==> ListedOk(s', e) && (e.id !in s.vms ==> e.id !in s'.vms)
  }

  lemma SurvivesStep(s: State, t: nat, s': State)
    requires Local(s, t, s')
    requires forall id :: id in s.vms ==> s.takes[id] == 0
    requires forall u :: u in s.tasks && s.tasks[u].Creating? ==> s.takes[s.tasks[u].entry.id] == 0
    ensures Survives(s, s')
  {
  }

  lemma ListsKept(s: State, t: nat, s': State)
    requires Lists(s) && Survives(s, s') && t in s'.tasks && s'.tasks == s.tasks[t := s'.tasks[t]]
    requires OwnListOk(s', t)
    ensures Lists(s')
  {
    forall u | u in s'.tasks && s'.tasks[u].Cleaning? && u != t
      ensures CleaningOk(s', s'.tasks[u].list, s'.tasks[u].next, s'.tasks[u].busy)
    {
      var list := s.tasks[u].list;
      assert CleaningOk(s, list, s.tasks[u].next, s.tasks[u].busy);
      assert forall i :: 0 <= i < |list| ==> ListedOk(s, list[i]);
    }
  }

  lemma CleaningStep(s: State, t: nat, list: seq<Entry>, next: nat, busy: Option<TeardownStage>, ok: bool, s': State)
    requires s.pool.Valid() && CleaningOk(s, list, next, busy) && s' == AdvanceCleaning(s, t, list, next, busy, ok)
    requires Survives(s, s')
    ensures OwnListOk(s', t)
  {
    assert forall i :: 0 <= i < |list| ==> ListedOk(s, list[i]);
  }

  lemma NewListOk(s: State, order: seq<VmId>, s': State)
    requires Enumerates(order, s.vms) && s'.vms == s.vms && s'.used == s.used
    requires forall id :: id in s.vms ==> s.vms[id].id == id && id in s.used
    ensures CleaningOk(s', Listing(order, s.vms), 0, None)
  {
  }

  ghost predicate OwnListOk(s: State, t: nat) {
    t in s.tasks && s.tasks[t].Cleaning? ==> CleaningOk(s, s.tasks[t].list, s.tasks[t].next, s.tasks[t].busy)
  }

  lemma CreatingIsNotCleaning(s: State, t: nat, stage: CreateStage, e: Entry, ok: bool)
    requires s.pool.Valid()
    ensures var s' := AdvanceCreating(s, t, stage, e, ok); t in s'.tasks && !s'.tasks[t].Cleaning?
  {
  }

  lemma AdvanceIsNotCleaning(s: State, t: nat, ok: bool, s': State)
    requires Enabled(s, t, Advance(ok)) && s' == AfterAdvance(s, t, ok) && !s.tasks[t].Cleaning?
    ensures t in s'.tasks && !s'.tasks[t].Cleaning?
  {
    match s.tasks[t]
    case Creating(stage, e) => CreatingIsNotCleaning(s, t, stage, e, ok);
    case _ =>
  }

  lemma OwnListStep(s: State, t: nat, a: Action, s': State)
    requires s.pool.Valid() && Lists(s) && Enabled(s, t, a) && s' == After(s, t, a) && Survives(s, s')
    requires forall id :: id in s.vms ==> s.vms[id].id == id && id in s.used
    ensures OwnListOk(s', t)
  {
    if a.Advance? {
      if s.tasks[t].Cleaning? {
        CleaningStep(s, t, s.tasks[t].list, s.tasks[t].next, s.tasks[t].busy, a.ok, s');
      } else {
        AdvanceIsNotCleaning(s, t, a.ok, s');
      }
    } else if a.BeginShutdown? {
      NewListOk(s, a.order, s');
    }
  }

  lemma ListsStep(s: State, t: nat, a: Action, s': State)
    requires Balanced(s) && Lists(s) && Enabled(s, t, a) && s' == After(s, t, a) && Local(s, t, s')
    ensures Lists(s')
  {
    NotTakenYet(s);
    SurvivesStep(s, t, s');
    OwnListStep(s, t, a, s');
    ListsKept(s, t, s');
  }

  // ----- The source rules -----

  ghost function OldRule(s: State, t: nat): Option<Rule> {
    if t in s.tasks then RuleOf(s.tasks[t]) else None
  }

  lemma WantedSame(s: State, t: nat, s': State)
    requires t in s'.tasks && s'.tasks == s.tasks[t := s'.tasks[t]] && s'.vms == s.vms
    requires RuleOf(s'.tasks[t]) == OldRule(s, t)
    ensures forall r :: Wanted(s', r) <==> Wanted(s, r)
  {
    assert forall u, r :: TaskWants(s'.tasks, u, r) <==> TaskWants(s.tasks, u, r);
  }

  lemma WantedMore(s: State, t: nat, x: Rule, s': State)
    requires t in s'.tasks && s'.tasks == s.tasks[t := s'.tasks[t]] && s'.vms == s.vms
    requires OldRule(s, t) == None && RuleOf(s'.tasks[t]) == Some(x)
    ensures forall r :: Wanted(s', r) <==> Wanted(s, r) || r == x
  {
    assert forall u, r :: TaskWants(s'.tasks, u, r) <==> TaskWants(s.tasks, u, r) || (u == t && r == x);
    assert TaskWants(s'.tasks, t, x);
  }

  lemma WantedLess(s: State, t: nat, x: Rule, s': State)
    requires t in s'.tasks && s'.tasks == s.tasks[t := s'.tasks[t]] && s'.vms == s.vms
    requires OldRule(s, t) == Some(x) && RuleOf(s'.tasks[t]) == None
    requires forall id :: !VmWants(s.vms, id, x)
    requires forall u :: u != t ==> !TaskWants(s.tasks, u, x)
    ensures forall r :: Wanted(s', r) <==> Wanted(s, r) && r != x
  {
    assert forall u, r :: TaskWants(s'.tasks, u, r) <==> TaskWants(s.tasks, u, r) && u != t;
    assert TaskWants(s.tasks, t, x);
  }

  lemma WantedEnroll(s: State, t: nat, e: Entry, s': State)
    requires t in s'.tasks && s'.tasks == s.tasks[t := s'.tasks[t]] && s'.vms == s.vms[e.id := e] && e.id !in s.vms
    requires OldRule(s, t) == Some(SourceRule(e)) && RuleOf(s'.tasks[t]) == None
    ensures forall r :: Wanted(s', r) <==> Wanted(s, r)
  {
    var x := SourceRule(e);
    assert TaskWants(s.tasks, t, x) && VmWants(s'.vms, e.id, x);
    assert forall u, r :: TaskWants(s.tasks, u, r) <==> TaskWants(s'.tasks, u, r) || (u == t && r == x);
    assert forall id, r :: VmWants(s'.vms, id, r) <==> VmWants(s.vms, id, r) || (id == e.id && r == x);
  }

  lemma WantedTake(s: State, t: nat, id: VmId, s': State)
    requires t in s'.tasks && s'.tasks == s.tasks[t := s'.tasks[t]] && id in s.vms && s'.vms == s.vms - {id}
    requires OldRule(s, t) == None && RuleOf(s'.tasks[t]) == Some(SourceRule(s.vms[id]))
    ensures forall r :: Wanted(s', r) <==> Wanted(s, r)
  {
    var x := SourceRule(s.vms[id]);
    assert TaskWants(s'.tasks, t, x) && VmWants(s.vms, id, x);
    assert forall u, r :: TaskWants(s'.tasks, u, r) <==> TaskWants(s.tasks, u, r) || (u == t && r == x);
    assert forall v, r :: VmWants(s.vms, v, r) <==> VmWants(s'.vms, v, r) || (v == id && r == x);
  }

  /** No two owners share an address. */
  ghost predicate DistinctIps(s: State) {
    && (forall id, t :: id in s.vms && t in s.tasks && Claim(s.tasks[t]).Some? ==> s.vms[id].ip != Claim(s.tasks[t]).value.ip)
    && (forall t, u :: t in s.tasks && u in s.tasks && Claim(s.tasks[t]).Some? && Claim(s.tasks[u]).Some? && t != u ==>
          Claim(s.tasks[t]).value.ip != Claim(s.tasks[u]).value.ip)
    && DistinctAddresses(s.vms)
  }

  lemma OwnersApart(s: State)
    requires Balanced(s)
    ensures DistinctIps(s)
  {
    var l :| Agrees(s, l) && Sound(l);
    LedgerApart(s, l);
  }

  lemma LedgerApart(s: State, l: Ledger)
    requires VmsAgree(s.vms, l.own) && TasksAgree(s.tasks, l.own) && Separate(l)
    ensures DistinctIps(s)
  {
    forall id, t | id in s.vms && t in s.tasks && Claim(s.tasks[t]).Some?
      ensures s.vms[id].ip != Claim(s.tasks[t]).value.ip
    {
      assert Apart(l.own[Vm(id)].entry, l.own[Handler(t)].entry);
    }
    forall t, u | t in s.tasks && u in s.tasks && Claim(s.tasks[t]).Some? && Claim(s.tasks[u]).Some? && t != u
      ensures Claim(s.tasks[t]).value.ip != Claim(s.tasks[u]).value.ip
    {
      assert Apart(l.own[Handler(t)].entry, l.own[Handler(u)].entry);
    }
    forall a, b | a in s.vms && b in s.vms && s.vms[a].ip == s.vms[b].ip ensures a == b {
      assert a != b ==> Apart(l.own[Vm(a)].entry, l.own[Vm(b)].entry);
    }
  }

  /** No other owner can want the rule of a task that holds an address. */
  lemma SoleWanter(s: State, t: nat, e: Entry)
    requires DistinctIps(s) && t in s.tasks && Claim(s.tasks[t]) == Some(e)
    ensures forall id :: !VmWants(s.vms, id, SourceRule(e))
    ensures forall u :: u != t ==> !TaskWants(s.tasks, u, SourceRule(e))
  {
  }

  /** Task `t` moves on, and does not go back to before its rule. */
  ghost predicate MovesOn(s: State, t: nat, s': State) {
    && t in s'.tasks && s'.tasks == s.tasks[t := s'.tasks[t]] && s.used <= s'.used
    && forall id :: BeforeRule(s'.tasks[t], id) ==> (t in s.tasks && BeforeRule(s.tasks[t], id)) || FreshId(s, id)
  }

  /** A step after which the same rules are wanted and the chain has the same source rules. */
  lemma RulesSame(s: State, t: nat, s': State)
    requires Rules(s) && MovesOn(s, t, s') && s'.strays == s.strays
    requires forall r :: Wanted(s', r) <==> Wanted(s, r)
    requires forall r: Rule :: r.RequireSource? ==> multiset(s'.forward)[r] == multiset(s.forward)[r]
    ensures Rules(s')
  {
  }

  lemma RulesMore(s: State, t: nat, x: Rule, s': State)
    requires Rules(s) && MovesOn(s, t, s') && s'.strays == s.strays
    requires forall r :: Wanted(s', r) <==> Wanted(s, r) || r == x
    requires !Wanted(s, x) && x !in s.strays && s'.forward == s.forward + [x]
    ensures Rules(s')
  {
  }

  lemma RulesLess(s: State, t: nat, x: Rule, s': State)
    requires Rules(s) && MovesOn(s, t, s') && s'.strays == s.strays
    requires forall r :: Wanted(s', r) <==> Wanted(s, r) && r != x
    requires Wanted(s, x) && multiset(s'.forward) == multiset(s.forward) - multiset{x}
    ensures Rules(s')
  {
  }

  lemma RulesStray(s: State, t: nat, x: Rule, u: VmId, s': State)
    requires Rules(s) && MovesOn(s, t, s') && s'.strays == s.strays + {x} && s'.forward == s.forward
    requires forall r :: Wanted(s', r) <==> Wanted(s, r) && r != x
    requires Wanted(s, x) && x.RequireSource? && u in s.used && x.tap == TapName(u)
    requires forall v, id :: v in s'.tasks && BeforeRule(s'.tasks[v], id) ==> TapName(id) != x.tap
    ensures Rules(s')
  {
  }

  lemma RulesAddStep(s: State, t: nat, e: Entry, s': State)
    requires Rules(s) && DistinctIps(s) && e.tap == TapName(e.id) && Before(s, t, Creating(AddRule, e))
    requires s' == Put(s.(forward := s.forward + [SourceRule(e)]), t, Creating(StartVm, e))
    ensures Rules(s')
  {
    var x := SourceRule(e);
    SoleWanter(s, t, e);
    WantedMore(s, t, x, s');
    assert BeforeRule(s.tasks[t], e.id);
    assert !TaskWants(s.tasks, t, x);
    RulesMore(s, t, x, s');
  }

  /** A rule that is dropped never carries the TAP name of a VM that is still to add its own. */
  lemma DroppedTapIsPast(s: State, t: nat, e: Entry)
    requires Balanced(s) && Taps(s) && t in s.tasks && Claim(s.tasks[t]) == Some(e) && HasRule(s.tasks[t])
    ensures e.tap == TapName(e.id) && e.id in s.used
    ensures forall v, id :: v in s.tasks && BeforeRule(s.tasks[v], id) ==> TapName(id) != e.tap
  {
    var l :| Agrees(s, l) && Sound(l);
    assert Handler(t) in l.own;
    forall v, id | v in s.tasks && BeforeRule(s.tasks[v], id) ensures TapName(id) != e.tap {
      StartsApart(s, l, t, e, v, id);
    }
  }

  lemma StartsApart(s: State, l: Ledger, t: nat, e: Entry, v: nat, id: VmId)
    requires TasksAgree(s.tasks, l.own) && WaitingAgree(s.tasks, l.pending) && Separate(l) && Identified(l)
    requires t in s.tasks && Claim(s.tasks[t]) == Some(e) && HasRule(s.tasks[t])
    requires v in s.tasks && BeforeRule(s.tasks[v], id)
    ensures id != e.id && id in l.used && e.id in l.used
  {
    assert v != t;
    assert Handler(t) in l.own;
    if s.tasks[v].Creating? {
      assert Handler(v) in l.own && Apart(l.own[Handler(t)].entry, l.own[Handler(v)].entry);
    } else {
      assert v in l.pending && l.pending[v] == id;
    }
  }

  /** `task` removes the source rule of `e` next, and becomes `after`. */
  ghost predicate DropsRule(task: Task, e: Entry, after: Task) {
    || (task == Creating(UndoRule, e) && after == Creating(UndoTap, e))
    || (task == Deleting(DropRule, e) && after == Deleting(DropTap, e))
    || (task.Cleaning? && task.busy == Some(DropRule) && after == task.(busy := Some(DropTap))
        && task.next < |task.list| && task.list[task.next] == e)
  }

  lemma DropsRuleFacts(task: Task, e: Entry, after: Task)
    requires DropsRule(task, e, after)
    ensures Claim(task) == Some(e) && HasRule(task) && RuleOf(after) == None
    ensures forall id :: !BeforeRule(after, id)
  {
  }

  lemma RulesDropStep(s: State, t: nat, e: Entry, ok: bool, task: Task, s': State)
    requires Rules(s) && e.tap == TapName(e.id) && e.id in s.used
    requires Wanted(s, SourceRule(e)) && forall r :: Wanted(s', r) <==> Wanted(s, r) && r != SourceRule(e)
    requires forall id :: !BeforeRule(task, id)
    requires forall v, id :: v in s.tasks && BeforeRule(s.tasks[v], id) ==> TapName(id) != e.tap
    requires s' == Put(RemoveRule(s, e, ok), t, task)
    ensures Rules(s')
  {
    if ok {
      WithoutFirstCounts(s.forward, SourceRule(e));
      RulesLess(s, t, SourceRule(e), s');
    } else {
      RulesStray(s, t, SourceRule(e), e.id, s');
    }
  }

  lemma WantedDrop(s: State, t: nat, e: Entry, task: Task, s': State)
    requires DistinctIps(s) && t in s.tasks && Claim(s.tasks[t]) == Some(e) && HasRule(s.tasks[t]) && RuleOf(task) == None
    requires s'.tasks == s.tasks[t := task] && s'.vms == s.vms
    ensures Wanted(s, SourceRule(e)) && forall r :: Wanted(s', r) <==> Wanted(s, r) && r != SourceRule(e)
  {
    SoleWanter(s, t, e);
    WantedLess(s, t, SourceRule(e), s');
    assert TaskWants(s.tasks, t, SourceRule(e));
  }

  // ----- so every step keeps the rules -----

  lemma SameCounts(s: State, s': State)
    requires s'.forward == s.forward || s'.forward == WithoutFirst(s.forward, DropFrom(BRIDGE))
    ensures forall r: Rule :: r.RequireSource? ==> multiset(s'.forward)[r] == multiset(s.forward)[r]
  {
    WithoutFirstCounts(s.forward, DropFrom(BRIDGE));
  }

  /** A step that neither adds nor drops a source rule. */
  lemma RulesQuiet(s: State, t: nat, s': State)
    requires Rules(s) && MovesOn(s, t, s') && s'.strays == s.strays && s'.vms == s.vms
    requires s'.forward == s.forward || s'.forward == WithoutFirst(s.forward, DropFrom(BRIDGE))
    requires RuleOf(s'.tasks[t]) == OldRule(s, t)
    ensures Rules(s')
  {
    WantedSame(s, t, s');
    SameCounts(s, s');
    RulesSame(s, t, s');
  }

  lemma RulesTake(s: State, t: nat, id: VmId, task: Task, s': State)
    requires Rules(s) && id in s.vms && s' == Put(Take(s, id).1, t, task)
    requires OldRule(s, t) == None && RuleOf(task) == Some(SourceRule(s.vms[id])) && !task.Creating? && !task.Requested?
    ensures Rules(s')
  {
    WantedTake(s, t, id, s');
    RulesSame(s, t, s');
  }

  /** The three places where a handler removes a source rule. */
  lemma RulesDrop(s: State, t: nat, e: Entry, ok: bool, task: Task, s': State)
    requires Rules(s) && Balanced(s) && Taps(s) && t in s.tasks && DropsRule(s.tasks[t], e, task)
    requires s' == Put(RemoveRule(s, e, ok), t, task)
    ensures Rules(s')
  {
    DropsRuleFacts(s.tasks[t], e, task);
    OwnersApart(s);
    WantedDrop(s, t, e, task, s');
    DroppedTapIsPast(s, t, e);
    RulesDropStep(s, t, e, ok, task, s');
  }

  lemma RulesAdd(s: State, t: nat, e: Entry, s': State)
    requires Rules(s) && Balanced(s) && Taps(s) && Before(s, t, Creating(AddRule, e))
    requires s' == AdvanceCreating(s, t, AddRule, e, true)
    ensures Rules(s')
  {
    OwnersApart(s);
    RulesAddStep(s, t, e, s');
  }

  lemma RulesOtherCreating(s: State, t: nat, stage: CreateStage, e: Entry, ok: bool, s': State)
    requires s.pool.Valid() && Rules(s) && Before(s, t, Creating(stage, e)) && s' == AdvanceCreating(s, t, stage, e, ok)
    requires !(stage.AddRule? && ok) && !stage.UndoRule?
    ensures Rules(s')
  {
    if stage.Register? && e.id !in s.vms {
      WantedEnroll(s, t, e, s');
      RulesSame(s, t, s');
    } else {
      RulesQuiet(s, t, s');
    }
  }

  lemma RulesOtherDeleting(s: State, t: nat, step: TeardownStage, e: Entry, ok: bool, s': State)
    requires s.pool.Valid() && Rules(s) && Before(s, t, Deleting(step, e)) && s' == AdvanceDeleting(s, t, step, e, ok)
    requires !step.DropRule?
    ensures Rules(s')
  {
    RulesQuiet(s, t, s');
  }

  lemma RulesOtherCleaning(s: State, t: nat, list: seq<Entry>, next: nat, busy: Option<TeardownStage>, ok: bool, s': State)
    requires s.pool.Valid() && Rules(s) && Before(s, t, Cleaning(list, next, busy))
    requires s' == AdvanceCleaning(s, t, list, next, busy, ok)
    requires (busy.Some? ==> next < |list|) && (next < |list| ==> ListedOk(s, list[next])) && busy != Some(DropRule)
    ensures Rules(s')
  {
    if busy.None? && next < |list| && list[next].id in s.vms {
      RulesTake(s, t, list[next].id, Cleaning(list, next, Some(StopVm)), s');
    } else {
      RulesQuiet(s, t, s');
    }
  }

  lemma RulesDelete(s: State, t: nat, id: VmId, s': State)
    requires s.pool.Valid() && Rules(s) && Before(s, t, DeleteRequested(id)) && s' == AfterAdvance(s, t, true)
    ensures Rules(s')
  {
    if id in s.vms {
      RulesTake(s, t, id, Deleting(StopVm, s.vms[id]), s');
    } else {
      RulesQuiet(s, t, s');
    }
  }

  lemma RulesRequested(s: State, t: nat, id: VmId, s': State)
    requires s.pool.Valid() && Rules(s) && Before(s, t, Requested(id)) && s' == AdvanceRequested(s, t, id)
    ensures Rules(s')
  {
    RulesQuiet(s, t, s');
  }

  lemma UndoRuleStep(s: State, t: nat, e: Entry, ok: bool)
    requires s.pool.Valid()
    ensures AdvanceCreating(s, t, UndoRule, e, ok) == Put(RemoveRule(s, e, ok), t, Creating(UndoTap, e))
  {
  }

  lemma RulesCreating(s: State, t: nat, stage: CreateStage, e: Entry, ok: bool, s': State)
    requires s.pool.Valid() && Rules(s) && Balanced(s) && Taps(s) && Before(s, t, Creating(stage, e))
    requires s' == AdvanceCreating(s, t, stage, e, ok)
    ensures Rules(s')
  {
    if stage.AddRule? && ok {
      RulesAdd(s, t, e, s');
    } else if stage.UndoRule? {
      UndoRuleStep(s, t, e, ok);
      RulesDrop(s, t, e, ok, Creating(UndoTap, e), s');
    } else {
      RulesOtherCreating(s, t, stage, e, ok, s');
    }
  }

  lemma RulesDeleting(s: State, t: nat, step: TeardownStage, e: Entry, ok: bool, s': State)
    requires s.pool.Valid() && Rules(s) && Balanced(s) && Taps(s) && Before(s, t, Deleting(step, e))
    requires s' == AdvanceDeleting(s, t, step, e, ok)
    ensures Rules(s')
  {
    if step.DropRule? {
      RulesDrop(s, t, e, ok, Deleting(DropTap, e), s');
    } else {
      RulesOtherDeleting(s, t, step, e, ok, s');
    }
  }

  lemma RulesCleanUp(s: State, t: nat, list: seq<Entry>, next: nat, ok: bool, s': State)
    requires s.pool.Valid() && Rules(s) && Balanced(s) && Taps(s)
    requires next < |list| && Before(s, t, Cleaning(list, next, Some(DropRule)))
    requires s' == AdvanceCleaning(s, t, list, next, Some(DropRule), ok)
    ensures Rules(s')
  {
    RulesDrop(s, t, list[next], ok, Cleaning(list, next, Some(DropTap)), s');
  }

  lemma RulesCleaning(s: State, t: nat, list: seq<Entry>, next: nat, busy: Option<TeardownStage>, ok: bool, s': State)
    requires s.pool.Valid() && Rules(s) && Balanced(s) && Taps(s) && Before(s, t, Cleaning(list, next, busy))
    requires (busy.Some? ==> next < |list|) && (next < |list| ==> ListedOk(s, list[next]))
    requires s' == AdvanceCleaning(s, t, list, next, busy, ok)
    ensures Rules(s')
  {
    if busy == Some(DropRule) {
      RulesCleanUp(s, t, list, next, ok, s');
    } else {
      RulesOtherCleaning(s, t, list, next, busy, ok, s');
    }
  }

  lemma RulesAdvance(s: State, t: nat, ok: bool, s': State)
    requires s.pool.Valid() && Balanced(s) && Taps(s) && Rules(s) && OwnListOk(s, t)
    requires Enabled(s, t, Advance(ok)) && s' == AfterAdvance(s, t, ok)
    ensures Rules(s')
  {
    match s.tasks[t]
    case Requested(id) => RulesRequested(s, t, id, s');
    case Creating(stage, e) => RulesCreating(s, t, stage, e, ok, s');
    case DeleteRequested(id) => RulesDelete(s, t, id, s');
    case Deleting(step, e) => RulesDeleting(s, t, step, e, ok, s');
    case Cleaning(list, next, busy) => RulesCleaning(s, t, list, next, busy, ok, s');
  }

  lemma RulesNotAdvance(s: State, t: nat, a: Action, s': State)
    requires s.pool.Valid() && Rules(s) && Enabled(s, t, a) && !a.Advance? && s' == After(s, t, a)
    ensures Rules(s')
  {
    RulesQuiet(s, t, s');
  }

  lemma RulesStep(s: State, t: nat, a: Action, s': State)
    requires Inv(s) && Enabled(s, t, a) && s' == After(s, t, a)
    ensures Rules(s')
  {
    if a.Advance? {
      RulesAdvance(s, t, a.ok, s');
    } else {
      RulesNotAdvance(s, t, a, s');
    }
  }

  /** Every step of every handler keeps the invariant. */
  lemma InvStep(s: State, t: nat, a: Action)
    requires Inv(s) && Enabled(s, t, a)
    ensures Inv(After(s, t, a))
  {
    var s' := After(s, t, a);
    BalancedStep(s, t, a, s');
    LocalStep(s, t, a, s');
    TapsStep(s, t, s');
    ListsStep(s, t, a, s');
    RulesStep(s, t, a, s');
  }
}
