/**
 The order of the FORWARD chain over whole runs. Startup puts the rule that drops all other traffic of the
 bridge at the end of the chain; the source rules of the VMs are appended behind it.
 */
module ProvisioningChain {
  import opened Options
  import opened IpAllocation
  import opened VmRegistration
  import opened Iptables
  import opened Provisioning
  import opened ProvisioningProofs
  import opened ProvisioningSafety

  const DROP: Rule := DropFrom(BRIDGE)

  /** The chain before the server's own rules. */
  ghost predicate Plain(base: seq<Rule>) {
    forall r :: r in base ==> !r.RequireSource? && r != DROP
  }

  function Front(base: seq<Rule>, gone: bool): seq<Rule> {
    base + if gone then [] else [DROP]
  }

  /** The chain is `base`, the drop rule unless it is gone, and source rules behind it. */
  ghost predicate LaidOut(base: seq<Rule>, gone: bool, chain: seq<Rule>) {
    && Front(base, gone) <= chain
    && forall i :: |Front(base, gone)| <= i < |chain| ==> chain[i].RequireSource?
  }

  // ----- One command on a chain laid out this way -----

  lemma {:induction false} WithoutFirstBehind(front: seq<Rule>, tail: seq<Rule>, r: Rule)
    requires r !in front
    ensures WithoutFirst(front + tail, r) == front + WithoutFirst(tail, r)
  {
    if front == [] {
      assert front + tail == tail && front + WithoutFirst(tail, r) == WithoutFirst(tail, r);
    } else {
      assert (front + tail)[1..] == front[1..] + tail;
      WithoutFirstBehind(front[1..], tail, r);
    }
  }

  lemma {:induction false} WithoutFirstKeeps(rules: seq<Rule>, r: Rule)
    requires forall i :: 0 <= i < |rules| ==> rules[i].RequireSource?
    ensures forall i :: 0 <= i < |WithoutFirst(rules, r)| ==> WithoutFirst(rules, r)[i].RequireSource?
  {
    if rules != [] { WithoutFirstKeeps(rules[1..], r); }
  }

  lemma SourceRemoved(base: seq<Rule>, gone: bool, chain: seq<Rule>, r: Rule)
    requires Plain(base) && LaidOut(base, gone, chain) && r.RequireSource?
    ensures LaidOut(base, gone, WithoutFirst(chain, r))
  {
    var front := Front(base, gone);
    var tail := chain[|front|..];
    assert chain == front + tail;
    WithoutFirstBehind(front, tail, r);
    WithoutFirstKeeps(tail, r);
  }

  lemma DropRemoved(base: seq<Rule>, gone: bool, chain: seq<Rule>)
    requires Plain(base) && LaidOut(base, gone, chain)
    ensures LaidOut(base, true, WithoutFirst(chain, DROP))
  {
    var front := Front(base, gone);
    var tail := chain[|front|..];
    assert chain == front + tail;
    if gone {
      assert DROP !in chain;
      WithoutFirstOfMissing(chain, DROP);
    } else {
      assert chain == base + ([DROP] + tail);
      WithoutFirstBehind(base, [DROP] + tail, DROP);
      assert ([DROP] + tail)[1..] == tail;
    }
  }

  // ----- One step of a handler -----

  /** The last step of a shutdown, with a deletion that works. */
  ghost predicate RemovesDrop(s: State, e: Event) {
    && e.a == Advance(true) && e.t in s.tasks
    && s.tasks[e.t].Cleaning? && s.tasks[e.t].next >= |s.tasks[e.t].list|
  }

  ghost predicate AddsRule(chain: seq<Rule>, chain': seq<Rule>, r: Rule) {
    r.RequireSource? && chain' == chain + [r]
  }

  ghost predicate DropsSource(chain: seq<Rule>, chain': seq<Rule>, r: Rule) {
    r.RequireSource? && chain' == WithoutFirst(chain, r)
  }

  lemma RemovalStep(s: State, e: Entry, ok: bool)
    ensures RemoveRule(s, e, ok).forward == s.forward || DropsSource(s.forward, RemoveRule(s, e, ok).forward, SourceRule(e))
  {
  }

  ghost predicate SourceStep(chain: seq<Rule>, chain': seq<Rule>) {
    || chain' == chain
    || (exists r :: AddsRule(chain, chain', r))
    || (exists r :: DropsSource(chain, chain', r))
  }

  lemma CreatingStep(s: State, t: nat, stage: CreateStage, e: Entry, ok: bool)
    requires s.pool.Valid()
    ensures SourceStep(s.forward, AdvanceCreating(s, t, stage, e, ok).forward)
  {
    RemovalStep(s, e, ok);
    if stage.AddRule? && ok {
      assert AddsRule(s.forward, AdvanceCreating(s, t, stage, e, ok).forward, SourceRule(e));
    }
  }

  lemma CleaningStep(s: State, t: nat, list: seq<Entry>, next: nat, busy: Option<TeardownStage>, ok: bool)
    requires s.pool.Valid()
    ensures next < |list| ==> SourceStep(s.forward, AdvanceCleaning(s, t, list, next, busy, ok).forward)
    ensures next >= |list| ==>
              AdvanceCleaning(s, t, list, next, busy, ok).forward == if ok then WithoutFirst(s.forward, DROP) else s.forward
  {
    if next < |list| {
      RemovalStep(s, list[next], ok);
    }
  }

  lemma ChainStep(s: State, e: Event)
    requires Enabled(s, e.t, e.a)
    ensures var s' := After(s, e.t, e.a);
            if RemovesDrop(s, e) then s'.forward == WithoutFirst(s.forward, DROP) else SourceStep(s.forward, s'.forward)
  {
    if e.a.Advance? {
      match s.tasks[e.t]
      case Creating(stage, entry) => CreatingStep(s, e.t, stage, entry, e.a.ok);
      case Deleting(step, entry) => RemovalStep(s, entry, e.a.ok);
      case Cleaning(list, next, busy) => CleaningStep(s, e.t, list, next, busy, e.a.ok);
      case _ =>
    }
  }

  lemma LayoutStep(base: seq<Rule>, gone: bool, s: State, e: Event)
    requires Plain(base) && LaidOut(base, gone, s.forward) && Enabled(s, e.t, e.a)
    ensures LaidOut(base, gone || RemovesDrop(s, e), After(s, e.t, e.a).forward)
  {
    ChainStep(s, e);
    if RemovesDrop(s, e) {
      DropRemoved(base, gone, s.forward);
    } else {
      forall r | DropsSource(s.forward, After(s, e.t, e.a).forward, r)
        ensures LaidOut(base, gone, After(s, e.t, e.a).forward)
      {
        SourceRemoved(base, gone, s.forward, r);
      }
    }
  }

  // ----- Whole runs -----

  /** Some shutdown of the run came to its end and deleted the drop rule. */
  ghost predicate DropIsGone(s0: State, events: seq<Event>)
    decreases |events|
  {
    events != [] && Enabled(s0, events[0].t, events[0].a)
    && (RemovesDrop(s0, events[0]) || DropIsGone(After(s0, events[0].t, events[0].a), events[1..]))
  }

  /** Every run keeps the layout of the chain: what was there, the drop rule until a shutdown ends, source rules. */
  lemma {:induction false} RunKeepsLayout(s0: State, events: seq<Event>, s: State, base: seq<Rule>, gone: bool)
    requires Runs(s0, events, s) && Plain(base) && LaidOut(base, gone, s0.forward)
    ensures LaidOut(base, gone || DropIsGone(s0, events), s.forward)
    decreases |events|
  {
    if events != [] {
      LayoutStep(base, gone, s0, events[0]);
      var s1 := After(s0, events[0].t, events[0].a);
      RunKeepsLayout(s1, events[1..], s, base, gone || RemovesDrop(s0, events[0]));
    }
  }

  ghost predicate DropIsLast(s: State) {
    s.forward != [] && s.forward[|s.forward| - 1] == DROP
  }

  /** No VM is registered, no handler has its rule in the chain, and no rule was left behind. */
  ghost predicate NobodyFiltered(s: State) {
    && s.vms == map[] && s.strays == {}
    && forall t :: t in s.tasks ==> !HasRule(s.tasks[t])
  }

  lemma UnfilteredIff(s: State)
    requires Rules(s) && Lists(s)
    ensures NobodyFiltered(s) <==> forall r: Rule :: r in s.forward ==> !r.RequireSource?
  {
    if NobodyFiltered(s) {
      forall r: Rule | r.RequireSource?
        ensures r !in s.forward
      {
        assert multiset(s.forward)[r] == 0;
      }
    }
    if forall r: Rule :: r in s.forward ==> !r.RequireSource? {
      NoSourceRules(s);
    }
  }

  lemma NoSourceRules(s: State)
    requires Rules(s) && Lists(s) && forall r: Rule :: r in s.forward ==> !r.RequireSource?
    ensures NobodyFiltered(s)
  {
    assert forall r: Rule :: r.RequireSource? ==> multiset(s.forward)[r] == 0;
    forall id | id in s.vms
      ensures false
    {
      assert VmWants(s.vms, id, SourceRule(s.vms[id]));
    }
    forall t | t in s.tasks
      ensures !HasRule(s.tasks[t])
    {
      if HasRule(s.tasks[t]) {
        assert TaskWants(s.tasks, t, SourceRule(Claim(s.tasks[t]).value));
      }
    }
  }

  /**
   The drop rule "must be last". Over every run of a server that started with it at the end of the chain,
   it is last exactly while no shutdown has deleted it and nobody is filtered.
   */
  lemma DropIsLastIff(s0: State, events: seq<Event>, s: State, base: seq<Rule>)
    requires Init(s0) && s0.forward == base + [DROP] && DROP !in base && Runs(s0, events, s)
    ensures DropIsLast(s) <==> !DropIsGone(s0, events) && NobodyFiltered(s)
  {
    assert forall r :: r in base ==> r in s0.forward;
    RunKeepsLayout(s0, events, s, base, false);
    InitHolds(s0);
    RunKeepsInv(s0, events, s);
    UnfilteredIff(s);
    LastOfLayout(base, DropIsGone(s0, events), s.forward);
  }

  lemma LastOfLayout(base: seq<Rule>, gone: bool, chain: seq<Rule>)
    requires Plain(base) && LaidOut(base, gone, chain)
    ensures chain != [] && chain[|chain| - 1] == DROP
       <==> !gone && forall r: Rule :: r in chain ==> !r.RequireSource?
  {
    var front := Front(base, gone);
    var tail := chain[|front|..];
    assert chain == front + tail;
    assert forall r :: r in front ==> !r.RequireSource?;
    if tail != [] {
      assert chain[|chain| - 1].RequireSource?;
    } else {
      assert chain == front;
      assert gone && chain != [] ==> chain[|chain| - 1] in base;
    }
  }

  // ----- The shortest run after which the drop rule is not last -----

  const ADVANCE: Event := Event(0, Advance(true))

  function OneCreate(id: VmId): seq<Event> {
    [Event(0, BeginCreate(id))] + ([ADVANCE] + ([ADVANCE] + ([ADVANCE] + ([ADVANCE] + []))))
  }

  lemma FirstAddress()
    ensures Allocated(EmptyPool()).0 == Some(AddressOf(0))
  {
    assert !EmptyPool().taken[0];
  }

  /** A create up to its source rule: the rule stands behind the drop rule, which is still there. */
  lemma OneCreateSuffices(s0: State, id: VmId, base: seq<Rule>)
    requires Init(s0) && s0.forward == base + [DROP]
    ensures exists s :: && Runs(s0, OneCreate(id), s) && !DropIsLast(s)
                        && s.forward == base + [DROP] + [RequireSource(TapName(id), AddressOf(0))]
  {
    FirstAddress();
    var e := Entry(id, AddressOf(0), TapName(id));
    var s1 := Put(s0.(used := s0.used + {id}), 0, Requested(id));
    var s2 := Put(s1.(pool := Allocated(EmptyPool()).1), 0, Creating(MakeTap, e));
    var s3 := Put(s2, 0, Creating(AttachTap, e));
    var s4 := Put(s3, 0, Creating(AddRule, e));
    var s5 := Put(s4.(forward := s4.forward + [SourceRule(e)]), 0, Creating(StartVm, e));
    RunsFirst(s4, ADVANCE, [], s5, s5);
    RunsFirst(s3, ADVANCE, [ADVANCE] + [], s4, s5);
    RunsFirst(s2, ADVANCE, [ADVANCE] + ([ADVANCE] + []), s3, s5);
    RunsFirst(s1, ADVANCE, [ADVANCE] + ([ADVANCE] + ([ADVANCE] + [])), s2, s5);
    RunsFirst(s0, Event(0, BeginCreate(id)), [ADVANCE] + ([ADVANCE] + ([ADVANCE] + ([ADVANCE] + []))), s1, s5);
  }
}
