/**
 The provisioning protocol. Any number of `create_vm`, `delete_vm` and shutdown handlers run at the
 same time; each is a small machine that can be preempted, fail or be cancelled between any two of
 its steps. They share the address pool, the VM registry and the host's FORWARD chain.
 */
module Provisioning {
  import opened Options
  import opened IpAllocation
  import opened VmRegistration
  import opened Iptables

  /** The TAP device of a VM: the first 11 digits of the identifier, because interface names are short. */
  function TapName(id: VmId): IfName {
    Tap(id / 0x10_0000_0000_0000_0000_0000)
  }

  const BRIDGE: IfName := Named("br0")

  function SourceRule(e: Entry): Rule {
    RequireSource(e.tap, e.ip)
  }

  /** Where a `create_vm` handler that has an address stands; the last three undo a failed start. */
  datatype CreateStage =
    | MakeTap | AttachTap | AddRule | StartVm | AwaitAgent | Register
    | UndoRule | UndoTap | GiveBack

  /** Where a handler that has taken an entry out of the registry stands. */
  datatype TeardownStage = StopVm | DropRule | DropTap | FreeAddress

  datatype Task =
    | Requested(id: VmId)                                          // create_vm without an address yet
    | Creating(stage: CreateStage, entry: Entry)                   // create_vm with an address
    | DeleteRequested(id: VmId)                                    // delete_vm before it has the entry
    | Deleting(step: TeardownStage, entry: Entry)                  // delete_vm with the entry
    | Cleaning(list: seq<Entry>, next: nat, busy: Option<TeardownStage>)  // shutdown, at list[next]
    | Abandoned(entry: Entry, rule: bool)                          // gone, keeping its address
    | Finished

  datatype State = State(
    pool: Pool,
    vms: Vms,
    forward: seq<Rule>,
    tasks: map<nat, Task>,
    used: set<VmId>,         // identifiers handed to some create_vm
    takes: multiset<VmId>,   // removals from the registry, by identifier
    frees: multiset<VmId>,   // releases of an address, by the identifier it belonged to
    strays: set<Rule>)       // source rules whose removal failed

  /** What happens next to task `t`. Each external call succeeds or fails as `ok` says. */
  datatype Action =
    | BeginCreate(id: VmId)
    | BeginDelete(id: VmId)
    | BeginShutdown(order: seq<VmId>)  // registry.list() in this iteration order
    | Advance(ok: bool)
    | Cancel

  /** Identifiers are never reused and TAP names never clash. */
  ghost predicate FreshId(s: State, id: VmId) {
    forall u :: u in s.used ==> TapName(u) != TapName(id)
  }

  ghost predicate Enabled(s: State, t: nat, a: Action) {
    s.pool.Valid() &&
    match a
    case BeginCreate(id) => t !in s.tasks && FreshId(s, id)
    case BeginDelete(_) => t !in s.tasks
    case BeginShutdown(order) => t !in s.tasks && Enumerates(order, s.vms)
    case Advance(_) => t in s.tasks && !s.tasks[t].Finished? && !s.tasks[t].Abandoned?
    case Cancel => t in s.tasks && !s.tasks[t].Finished? && !s.tasks[t].Abandoned?
  }

  function Put(s: State, t: nat, task: Task): State {
    s.(tasks := s.tasks[t := task])
  }

  /** The entry whose address task `t` holds, if it holds one. */
  function Claim(task: Task): Option<Entry> {
    match task
    case Creating(_, e) => Some(e)
    case Deleting(_, e) => Some(e)
    case Cleaning(list, next, busy) => if busy.Some? && next < |list| then Some(list[next]) else None
    case Abandoned(e, _) => Some(e)
    case _ => None
  }

  /** Whether a handler's source rule is in the FORWARD chain. */
  predicate HasRule(task: Task) {
    match task
    case Creating(stage, _) => stage.StartVm? || stage.AwaitAgent? || stage.Register? || stage.UndoRule?
    case Deleting(step, _) => step.StopVm? || step.DropRule?
    case Cleaning(_, _, busy) => busy == Some(StopVm) || busy == Some(DropRule)
    case Abandoned(_, rule) => rule
    case _ => false
  }

  /** Best-effort removal of a source rule; a failure leaves it behind. */
  function RemoveRule(s: State, e: Entry, ok: bool): State {
    if ok then s.(forward := WithoutFirst(s.forward, SourceRule(e)))
    else s.(strays := s.strays + {SourceRule(e)})
  }

  function FreeAddressOf(s: State, e: Entry): State
    requires s.pool.Valid()
  {
    s.(pool := Released(s.pool, e.ip).1, frees := s.frees + multiset{e.id})
  }

  function AdvanceRequested(s: State, t: nat, id: VmId): State
    requires s.pool.Valid()
  {
    var (r, pool) := Allocated(s.pool);
    match r
    case None => Put(s, t, Finished)
    case Some(ip) => Put(s.(pool := pool), t, Creating(MakeTap, Entry(id, ip, TapName(id))))
  }

  function AdvanceCreating(s: State, t: nat, stage: CreateStage, e: Entry, ok: bool): State
    requires s.pool.Valid()
  {
    match stage
    case MakeTap => Put(s, t, Creating(if ok then AttachTap else GiveBack, e))
    case AttachTap => Put(s, t, Creating(if ok then AddRule else GiveBack, e))
    case AddRule =>
      if ok then Put(s.(forward := s.forward + [SourceRule(e)]), t, Creating(StartVm, e))
      else Put(s, t, Creating(GiveBack, e))
    case StartVm => Put(s, t, Creating(if ok then AwaitAgent else UndoRule, e))
    case AwaitAgent => Put(s, t, Creating(Register, e))
    case Register =>
      var (r, vms) := Inserted(s.vms, e.id, e);
      if r.Ok? then Put(s.(vms := vms), t, Finished) else Put(s, t, Abandoned(e, true))
    case UndoRule => Put(RemoveRule(s, e, ok), t, Creating(UndoTap, e))
    case UndoTap => Put(s, t, Creating(GiveBack, e))
    case GiveBack => Put(FreeAddressOf(s, e), t, Finished)
  }

  /** Taking an entry out of the registry; `None` when another handler has it. */
  function Take(s: State, id: VmId): (Option<Entry>, State) {
    var (r, vms) := Removed(s.vms, id);
    match r
    case Ok(e) => (Some(e), s.(vms := vms, takes := s.takes + multiset{id}))
    case Err => (None, s)
  }

  function AdvanceDeleting(s: State, t: nat, step: TeardownStage, e: Entry, ok: bool): State
    requires s.pool.Valid()
  {
    match step
    case StopVm => Put(s, t, Deleting(DropRule, e))
    case DropRule => Put(RemoveRule(s, e, ok), t, Deleting(DropTap, e))
    case DropTap => Put(s, t, Deleting(FreeAddress, e))
    case FreeAddress => Put(FreeAddressOf(s, e), t, Finished)
  }

  /** Shutdown tears down with the address and TAP name of its list, not of the removed entry. */
  function AdvanceCleaning(s: State, t: nat, list: seq<Entry>, next: nat, busy: Option<TeardownStage>, ok: bool): State
    requires s.pool.Valid()
  {
    if next >= |list| then
      Put(if ok then s.(forward := WithoutFirst(s.forward, DropFrom(BRIDGE))) else s, t, Finished)
    else
      var e := list[next];
      match busy
      case None =>
        var (taken, s') := Take(s, e.id);
        if taken.Some? then Put(s', t, Cleaning(list, next, Some(StopVm)))
        else Put(s', t, Cleaning(list, next + 1, None))
      case Some(StopVm) => Put(s, t, Cleaning(list, next, Some(DropRule)))
      case Some(DropRule) => Put(RemoveRule(s, e, ok), t, Cleaning(list, next, Some(DropTap)))
      case Some(DropTap) => Put(s, t, Cleaning(list, next, Some(FreeAddress)))
      case Some(FreeAddress) => Put(FreeAddressOf(s, e), t, Cleaning(list, next + 1, None))
  }

  function AfterAdvance(s: State, t: nat, ok: bool): State
    requires s.pool.Valid() && t in s.tasks
  {
    match s.tasks[t]
    case Requested(id) => AdvanceRequested(s, t, id)
    case Creating(stage, e) => AdvanceCreating(s, t, stage, e, ok)
    case DeleteRequested(id) =>
      var (taken, s') := Take(s, id);
      Put(s', t, if taken.Some? then Deleting(StopVm, taken.value) else Finished)
    case Deleting(step, e) => AdvanceDeleting(s, t, step, e, ok)
    case Cleaning(list, next, busy) => AdvanceCleaning(s, t, list, next, busy, ok)
    case Abandoned(_, _) => s
    case Finished => s
  }

  function After(s: State, t: nat, a: Action): State
    requires s.pool.Valid()
    requires a.BeginShutdown? ==> forall i :: 0 <= i < |a.order| ==> a.order[i] in s.vms
    requires a.Advance? || a.Cancel? ==> t in s.tasks
  {
    match a
    case BeginCreate(id) => Put(s.(used := s.used + {id}), t, Requested(id))
    case BeginDelete(id) => Put(s, t, DeleteRequested(id))
    case BeginShutdown(order) => Put(s, t, Cleaning(Listing(order, s.vms), 0, None))
    case Advance(ok) => AfterAdvance(s, t, ok)
    case Cancel =>
      var task := s.tasks[t];
      Put(s, t, if Claim(task).Some? then Abandoned(Claim(task).value, HasRule(task)) else Finished)
  }
}
