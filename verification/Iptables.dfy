/**
 The host's packet filter: the rule tables the server installs at startup, the per-VM source
 address rules, and their removal. A chain is a sequence of rules; `append` adds at the end,
 `delete` removes the first rule equal to its argument and fails when there is none.
 */
module Iptables {
  import opened Options
  import opened IpAllocation

  datatype Proto = Tcp | Udp

  /** An interface name; `Tap(d)` is "tap-" followed by the eleven hexadecimal digits of `d`. */
  datatype IfName = Named(text: string) | Tap(digits: nat)

  datatype Rule =
    | Redirect(iface: IfName, proto: Proto, dport: nat, toPort: nat)
    | DropFrom(iface: IfName)
    | RequireSource(tap: IfName, ip: IpAddr)
    | Foreign(text: string)

  datatype ChainName = Prerouting | Forward

  datatype Tables = Tables(prerouting: seq<Rule>, forward: seq<Rule>) {
    function Get(c: ChainName): seq<Rule> {
      if c.Prerouting? then prerouting else forward
    }

    function Set(c: ChainName, rules: seq<Rule>): Tables {
      if c.Prerouting? then this.(prerouting := rules) else this.(forward := rules)
    }
  }

  /** A rule together with the chain it belongs to. */
  datatype Placed = Placed(chain: ChainName, rule: Rule)

  function RedirectRules(bridge: IfName): seq<Placed> {
    [Placed(Prerouting, Redirect(bridge, Tcp, 80, 10080)),
     Placed(Prerouting, Redirect(bridge, Tcp, 443, 10443))]
  }

  function EgressRules(bridge: IfName): seq<Placed> {
    [Placed(Prerouting, Redirect(bridge, Udp, 53, 10053)),
     Placed(Prerouting, Redirect(bridge, Tcp, 53, 10053)),
     Placed(Forward, DropFrom(bridge))]
  }

  /** The five rules installed once per bridge: what the creation of the bridge appends. */
  function BaseRules(bridge: IfName): seq<Placed> {
    RedirectRules(bridge) + EgressRules(bridge)
  }

  /** The rules every startup ensures, as it lists them. */
  function EnsuredRules(bridge: IfName): seq<Placed> {
    [Placed(Prerouting, Redirect(bridge, Tcp, 80, 10080)),
     Placed(Prerouting, Redirect(bridge, Tcp, 443, 10443))]
    + [Placed(Prerouting, Redirect(bridge, Udp, 53, 10053)),
       Placed(Prerouting, Redirect(bridge, Tcp, 53, 10053)),
       Placed(Forward, DropFrom(bridge))]
  }

  /** The rules shutdown removes, as it lists them. */
  function RemovedRules(bridge: IfName): seq<Placed> {
    [Placed(Prerouting, Redirect(bridge, Tcp, 80, 10080)),
     Placed(Prerouting, Redirect(bridge, Tcp, 443, 10443)),
     Placed(Prerouting, Redirect(bridge, Udp, 53, 10053)),
     Placed(Prerouting, Redirect(bridge, Tcp, 53, 10053)),
     Placed(Forward, DropFrom(bridge))]
  }

  /** The three lists agree. */
  lemma ListsAgree(bridge: IfName)
    ensures EnsuredRules(bridge) == BaseRules(bridge) == RemovedRules(bridge)
  {
  }

  const HTTP_LISTEN_PORT: nat := 10080
  const TLS_LISTEN_PORT: nat := 10443
  const DNS_LISTEN_PORT: nat := 10053

  /** The port where the proxy for some traffic listens. */
  function ProxyFor(proto: Proto, dport: nat): Option<nat> {
    if proto.Tcp? && dport == 80 then Some(HTTP_LISTEN_PORT)
    else if proto.Tcp? && dport == 443 then Some(TLS_LISTEN_PORT)
    else if dport == 53 then Some(DNS_LISTEN_PORT)
    else None
  }

  /** HTTP, HTTPS and DNS from the bridge, and nothing else, are redirected, each to the port its proxy listens on. */
  lemma RedirectsReachProxies(bridge: IfName, proto: Proto, dport: nat, toPort: nat)
    ensures Placed(Prerouting, Redirect(bridge, proto, dport, toPort)) in BaseRules(bridge)
       <==> ProxyFor(proto, dport) == Some(toPort)
    ensures Placed(Forward, DropFrom(bridge)) in BaseRules(bridge)
  {
    var ps := BaseRules(bridge);
    assert ps[0] == Placed(Prerouting, Redirect(bridge, Tcp, 80, 10080));
    assert ps[1] == Placed(Prerouting, Redirect(bridge, Tcp, 443, 10443));
    assert ps[2] == Placed(Prerouting, Redirect(bridge, Udp, 53, 10053));
    assert ps[3] == Placed(Prerouting, Redirect(bridge, Tcp, 53, 10053));
    assert ps[4] == Placed(Forward, DropFrom(bridge));
  }

  // ----- What each command does to the tables -----

  function Appended(t: Tables, p: Placed): Tables {
    t.Set(p.chain, t.Get(p.chain) + [p.rule])
  }

  function Ensured(t: Tables, p: Placed): Tables {
    if p.rule in t.Get(p.chain) then t else Appended(t, p)
  }

  function WithoutFirst(rules: seq<Rule>, r: Rule): seq<Rule> {
    if rules == [] then []
    else if rules[0] == r then rules[1..]
    else [rules[0]] + WithoutFirst(rules[1..], r)
  }

  function Deleted(t: Tables, p: Placed): Tables {
    t.Set(p.chain, WithoutFirst(t.Get(p.chain), p.rule))
  }

  function AppendedAll(t: Tables, ps: seq<Placed>): Tables
    decreases |ps|
  {
    if ps == [] then t else AppendedAll(Appended(t, ps[0]), ps[1..])
  }

  function EnsuredAll(t: Tables, ps: seq<Placed>): Tables
    decreases |ps|
  {
    if ps == [] then t else EnsuredAll(Ensured(t, ps[0]), ps[1..])
  }

  function DeletedAll(t: Tables, ps: seq<Placed>): Tables
    decreases |ps|
  {
    if ps == [] then t else DeletedAll(Deleted(t, ps[0]), ps[1..])
  }

  ghost predicate Present(t: Tables, p: Placed) {
    p.rule in t.Get(p.chain)
  }

  ghost predicate Absent(t: Tables, ps: seq<Placed>) {
    forall i :: 0 <= i < |ps| ==> !Present(t, ps[i])
  }

  ghost predicate Distinct(ps: seq<Placed>) {
    forall i, j :: 0 <= i < j < |ps| ==> ps[i] != ps[j]
  }

  /** `t'` extends every chain of `t` at its end. */
  ghost predicate Extends(t: Tables, t': Tables) {
    t.prerouting <= t'.prerouting && t.forward <= t'.forward
  }

  // ----- The ensure routines -----

  /** Existing rules keep their places, and afterwards every wanted rule is there. */
  lemma {:induction false} EnsureKeepsOrder(t: Tables, ps: seq<Placed>)
    ensures Extends(t, EnsuredAll(t, ps))
    ensures forall i :: 0 <= i < |ps| ==> Present(EnsuredAll(t, ps), ps[i])
    decreases |ps|
  {
    if ps != [] {
      EnsureKeepsOrder(Ensured(t, ps[0]), ps[1..]);
      assert Present(Ensured(t, ps[0]), ps[0]);
    }
  }

  lemma {:induction false} EnsureOfPresent(t: Tables, ps: seq<Placed>)
    requires forall i :: 0 <= i < |ps| ==> Present(t, ps[i])
    ensures EnsuredAll(t, ps) == t
  {
    if ps != [] {
      assert Present(t, ps[0]);
      EnsureOfPresent(t, ps[1..]);
    }
  }

  lemma {:induction false} EnsureSplits(t: Tables, ps: seq<Placed>, qs: seq<Placed>)
    ensures EnsuredAll(t, ps + qs) == EnsuredAll(EnsuredAll(t, ps), qs)
    decreases |ps|
  {
    if ps == [] {
      assert ps + qs == qs;
    } else {
      assert (ps + qs)[1..] == ps[1..] + qs;
      EnsureSplits(Ensured(t, ps[0]), ps[1..], qs);
    }
  }

  /** Running the ensure routines again, even after a run that stopped at rule `k`, changes nothing more. */
  lemma EnsureIsIdempotent(t: Tables, ps: seq<Placed>, k: nat)
    requires k <= |ps|
    ensures EnsuredAll(EnsuredAll(t, ps[..k]), ps) == EnsuredAll(t, ps)
    ensures EnsuredAll(EnsuredAll(t, ps), ps) == EnsuredAll(t, ps)
  {
    var part := EnsuredAll(t, ps[..k]);
    assert ps == ps[..k] + ps[k..];
    EnsureKeepsOrder(t, ps[..k]);
    EnsureSplits(part, ps[..k], ps[k..]);
    EnsureOfPresent(part, ps[..k]);
    EnsureSplits(t, ps[..k], ps[k..]);
    EnsureKeepsOrder(t, ps);
    EnsureOfPresent(EnsuredAll(t, ps), ps);
  }

  lemma {:induction false} AppendOfAbsent(t: Tables, ps: seq<Placed>)
    requires Distinct(ps) && Absent(t, ps)
    ensures AppendedAll(t, ps) == EnsuredAll(t, ps)
    decreases |ps|
  {
    if ps != [] {
      assert !Present(t, ps[0]);
      forall i | 1 <= i < |ps| ensures !Present(Appended(t, ps[0]), ps[i]) {
        assert !Present(t, ps[i]);
      }
      AppendOfAbsent(Appended(t, ps[0]), ps[1..]);
    }
  }

  /**
   Creating the bridge appends the base rules unconditionally, and every startup then ensures them.
   From tables without the base rules this is the same as ensuring alone, also when the
   unconditional part stopped after `k` rules.
   */
  lemma AddThenEnsure(t: Tables, bridge: IfName, k: nat)
    requires Absent(t, BaseRules(bridge)) && k <= |BaseRules(bridge)|
    ensures EnsuredAll(AppendedAll(t, BaseRules(bridge)[..k]), BaseRules(bridge)) == EnsuredAll(t, BaseRules(bridge))
  {
    var ps := BaseRules(bridge);
    AppendOfAbsent(t, ps[..k]);
    EnsureIsIdempotent(t, ps, k);
  }

  /** From tables without the base rules, startup leaves the drop rule at the end of the FORWARD chain. */
  lemma StartupPutsDropLast(t: Tables, bridge: IfName)
    requires Absent(t, BaseRules(bridge))
    ensures EnsuredAll(t, BaseRules(bridge)).forward == t.forward + [DropFrom(bridge)]
  {
    var ps := BaseRules(bridge);
    AppendOfAbsent(t, ps);
    assert ps == ps[..4] + [ps[4]];
    AppendSplits(t, ps[..4], [ps[4]]);
    AppendsElsewhere(t, ps[..4]);
    assert AppendedAll(AppendedAll(t, ps[..4]), [ps[4]]) == Appended(AppendedAll(t, ps[..4]), ps[4]);
  }

  lemma {:induction false} AppendsElsewhere(t: Tables, ps: seq<Placed>)
    requires forall i :: 0 <= i < |ps| ==> ps[i].chain.Prerouting?
    ensures AppendedAll(t, ps).forward == t.forward
    decreases |ps|
  {
    if ps != [] { AppendsElsewhere(Appended(t, ps[0]), ps[1..]); }
  }

  // ----- Per-VM rules and the removal of the base rules -----

  /** A per-VM command on the FORWARD chain. */
  datatype VmOp = AddSource(tap: IfName, ip: IpAddr) | RemoveSource(tap: IfName, ip: IpAddr)

  function AfterVmOp(t: Tables, op: VmOp): Tables {
    match op
    case AddSource(tap, ip) => Appended(t, Placed(Forward, RequireSource(tap, ip)))
    case RemoveSource(tap, ip) => Deleted(t, Placed(Forward, RequireSource(tap, ip)))
  }

  function AfterVmOps(t: Tables, ops: seq<VmOp>): Tables
    decreases |ops|
  {
    if ops == [] then t else AfterVmOps(AfterVmOp(t, ops[0]), ops[1..])
  }

  lemma {:induction false} WithoutFirstOfAppend(rules: seq<Rule>, last: Rule, r: Rule)
    ensures WithoutFirst(rules + [last], r)
         == if r in rules then WithoutFirst(rules, r) + [last]
            else if r == last then rules else rules + [last]
  {
    if rules == [] {
      assert rules + [last] == [last] && [last][1..] == [];
    } else {
      assert (rules + [last])[1..] == rules[1..] + [last];
      WithoutFirstOfAppend(rules[1..], last, r);
      assert r in rules <==> r == rules[0] || r in rules[1..];
      assert rules == [rules[0]] + rules[1..];
    }
  }

  lemma {:induction false} WithoutFirstCommutes(rules: seq<Rule>, a: Rule, b: Rule)
    requires a != b
    ensures WithoutFirst(WithoutFirst(rules, a), b) == WithoutFirst(WithoutFirst(rules, b), a)
    ensures a in rules <==> a in WithoutFirst(rules, b)
  {
    if rules != [] {
      WithoutFirstCommutes(rules[1..], a, b);
      assert forall x :: x in rules <==> x == rules[0] || x in rules[1..];
      assert forall x: Rule, xs: seq<Rule> :: ([x] + xs)[1..] == xs;
    }
  }

  lemma {:induction false} WithoutFirstOfMissing(rules: seq<Rule>, r: Rule)
    requires r !in rules
    ensures WithoutFirst(rules, r) == rules
  {
    if rules != [] { WithoutFirstOfMissing(rules[1..], r); }
  }

  /** Deleting an installed base rule commutes with any per-VM commands. */
  lemma {:induction false} DeleteCommutesWithVmOps(t: Tables, ops: seq<VmOp>, p: Placed)
    requires Present(t, p) && !p.rule.RequireSource?
    ensures Deleted(AfterVmOps(t, ops), p) == AfterVmOps(Deleted(t, p), ops)
    ensures Present(AfterVmOps(t, ops), p)
    decreases |ops|
  {
    if ops != [] {
      var r := RequireSource(ops[0].tap, ops[0].ip);
      WithoutFirstOfAppend(t.forward, r, p.rule);
      WithoutFirstCommutes(t.forward, p.rule, r);
      DeleteCommutesWithVmOps(AfterVmOp(t, ops[0]), ops[1..], p);
    }
  }

  lemma {:induction false} DeleteAfterAppend(t: Tables, ps: seq<Placed>, p: Placed)
    requires !Present(t, p) && p !in ps
    ensures Deleted(AppendedAll(Appended(t, p), ps), p) == AppendedAll(t, ps)
    ensures Present(AppendedAll(Appended(t, p), ps), p)
    decreases |ps|
  {
    if ps == [] {
      WithoutFirstOfAppend(t.Get(p.chain), p.rule, p.rule);
    } else {
      var last := ps[|ps| - 1];
      var init := ps[..|ps| - 1];
      assert ps == init + [last];
      DeleteAfterAppend(t, init, p);
      AppendSplits(t, init, [last]);
      AppendSplits(Appended(t, p), init, [last]);
      var u := AppendedAll(Appended(t, p), init);
      WithoutFirstOfAppend(u.Get(p.chain), last.rule, p.rule);
    }
  }

  lemma {:induction false} AppendSplits(t: Tables, ps: seq<Placed>, qs: seq<Placed>)
    ensures AppendedAll(t, ps + qs) == AppendedAll(AppendedAll(t, ps), qs)
    decreases |ps|
  {
    if ps == [] {
      assert ps + qs == qs;
    } else {
      assert (ps + qs)[1..] == ps[1..] + qs;
      AppendSplits(Appended(t, ps[0]), ps[1..], qs);
    }
  }

  /** The rules whose deletion failed. */
  function Kept(ps: seq<Placed>, works: nat -> bool): seq<Placed> {
    if ps == [] then []
    else Kept(ps[..|ps| - 1], works) + if works(|ps| - 1) then [] else [ps[|ps| - 1]]
  }

  /** Best-effort deletion: command number `i` works or does not, as `works(i)` says. */
  function DeletedSome(t: Tables, ps: seq<Placed>, works: nat -> bool): Tables {
    if ps == [] then t
    else
      var n := |ps| - 1;
      var u := DeletedSome(t, ps[..n], works);
      if works(n) then Deleted(u, ps[n]) else u
  }

  lemma {:induction false} KeptAreGiven(ps: seq<Placed>, works: nat -> bool)
    ensures forall p :: p in Kept(ps, works) ==> p in ps
  {
    if ps != [] { KeptAreGiven(ps[..|ps| - 1], works); }
  }

  /**
   Removal when some deletions fail: the tables are as if only the rules whose deletion failed had ever
   been installed, whatever per-VM commands ran in between.
   */
  lemma {:induction false} RemoveLeavesKept(t: Tables, ps: seq<Placed>, rest: seq<Placed>, works: nat -> bool, ops: seq<VmOp>)
    requires Distinct(ps + rest) && Absent(t, ps + rest)
    requires forall p :: p in ps ==> !p.rule.RequireSource?
    ensures DeletedSome(AfterVmOps(AppendedAll(t, ps + rest), ops), ps, works)
         == AfterVmOps(AppendedAll(t, Kept(ps, works) + rest), ops)
    decreases |ps|
  {
    if ps == [] {
      assert ps + rest == rest && Kept(ps, works) + rest == rest;
    } else {
      var n := |ps| - 1;
      var p, front := ps[n], ps[..n];
      assert ps + rest == front + ([p] + rest);
      RemoveLeavesKept(t, front, [p] + rest, works, ops);
      KeptAreGiven(front, works);
      KeptStep(t, front, p, rest, Kept(front, works), ops);
      assert Kept(ps, works) == Kept(front, works) + if works(n) then [] else [p];
    }
  }

  lemma KeptStep(t: Tables, front: seq<Placed>, p: Placed, rest: seq<Placed>, kept: seq<Placed>, ops: seq<VmOp>)
    requires Distinct(front + ([p] + rest)) && Absent(t, front + ([p] + rest)) && forall q :: q in kept ==> q in front
    requires !p.rule.RequireSource?
    ensures kept + ([p] + rest) == kept + [p] + rest && kept + [] + rest == kept + rest
    ensures Deleted(AfterVmOps(AppendedAll(t, kept + ([p] + rest)), ops), p) == AfterVmOps(AppendedAll(t, kept + rest), ops)
  {
    assert kept + ([p] + rest) == kept + [p] + rest;
    StillAbsent(t, front, p, rest, kept);
    DeleteInMiddle(t, kept, p, rest, ops);
  }

  lemma StillAbsent(t: Tables, front: seq<Placed>, p: Placed, rest: seq<Placed>, kept: seq<Placed>)
    requires Distinct(front + ([p] + rest)) && Absent(t, front + ([p] + rest)) && forall q :: q in kept ==> q in front
    ensures !Present(t, p) && p !in kept && p !in rest
  {
    var all := front + ([p] + rest);
    assert all[|front|] == p;
    assert forall i :: 0 <= i < |front| ==> all[i] == front[i];
    assert forall i :: 0 <= i < |rest| ==> all[|front| + 1 + i] == rest[i];
  }

  lemma {:induction false} NotPresentAfter(t: Tables, ps: seq<Placed>, p: Placed)
    requires !Present(t, p) && p !in ps
    ensures !Present(AppendedAll(t, ps), p)
    decreases |ps|
  {
    if ps != [] { NotPresentAfter(Appended(t, ps[0]), ps[1..], p); }
  }

  lemma DeleteInMiddle(t: Tables, before: seq<Placed>, p: Placed, after: seq<Placed>, ops: seq<VmOp>)
    requires !Present(t, p) && p !in before && p !in after && !p.rule.RequireSource?
    ensures Deleted(AfterVmOps(AppendedAll(t, before + [p] + after), ops), p)
         == AfterVmOps(AppendedAll(t, before + after), ops)
  {
    var u := AppendedAll(t, before);
    AppendSplits(t, before + [p], after);
    AppendSplits(t, before, [p]);
    AppendSplits(t, before, after);
    NotPresentAfter(t, before, p);
    assert AppendedAll(u, [p]) == Appended(u, p);
    DeleteAfterAppend(u, after, p);
    DeleteCommutesWithVmOps(AppendedAll(Appended(u, p), after), ops, p);
  }

  lemma {:induction false} DeletedSomeIsAll(t: Tables, ps: seq<Placed>, works: nat -> bool)
    requires forall i :: 0 <= i < |ps| ==> works(i)
    ensures DeletedSome(t, ps, works) == DeletedAll(t, ps) && Kept(ps, works) == []
    decreases |ps|
  {
    if ps != [] {
      var n := |ps| - 1;
      DeletedSomeIsAll(t, ps[..n], works);
      DeleteSplits(t, ps[..n], [ps[n]]);
      assert ps[..n] + [ps[n]] == ps;
    }
  }

  lemma {:induction false} DeleteSplits(t: Tables, ps: seq<Placed>, qs: seq<Placed>)
    ensures DeletedAll(t, ps + qs) == DeletedAll(DeletedAll(t, ps), qs)
    decreases |ps|
  {
    if ps == [] {
      assert ps + qs == qs;
    } else {
      assert (ps + qs)[1..] == ps[1..] + qs;
      DeleteSplits(Deleted(t, ps[0]), ps[1..], qs);
    }
  }

  /** `remove_proxy_rules` after startup and any per-VM commands, whichever of its deletions fail. */
  lemma RemoveRestoresRest(t: Tables, bridge: IfName, works: nat -> bool, ops: seq<VmOp>)
    requires Absent(t, BaseRules(bridge))
    ensures DeletedSome(AfterVmOps(EnsuredAll(t, BaseRules(bridge)), ops), BaseRules(bridge), works)
         == AfterVmOps(AppendedAll(t, Kept(BaseRules(bridge), works)), ops)
  {
    var ps := BaseRules(bridge);
    AppendOfAbsent(t, ps);
    assert ps + [] == ps && Kept(ps, works) + [] == Kept(ps, works);
    RemoveLeavesKept(t, ps, [], works, ops);
  }

  /** Shutdown's `remove_proxy_rules` undoes startup, whatever per-VM commands ran in between. */
  lemma RemoveRestores(t: Tables, bridge: IfName, ops: seq<VmOp>)
    requires Absent(t, BaseRules(bridge))
    ensures DeletedAll(AfterVmOps(EnsuredAll(t, BaseRules(bridge)), ops), BaseRules(bridge)) == AfterVmOps(t, ops)
  {
    var works := (i: nat) => true;
    RemoveRestoresRest(t, bridge, works, ops);
    DeletedSomeIsAll(AfterVmOps(EnsuredAll(t, BaseRules(bridge)), ops), BaseRules(bridge), works);
  }

  // ----- Per-VM rules that have all been removed leave no trace -----

  /** The rules in force after `ops`, when `live` are in force before; an add needs a new rule. */
  ghost predicate Paired(t: Tables, live: set<Rule>, ops: seq<VmOp>)
    decreases |ops|
  {
    if ops == [] then live == {}
    else
      var r := RequireSource(ops[0].tap, ops[0].ip);
      && r !in t.forward
      && match ops[0]
         case AddSource(_, _) => r !in live && Paired(t, live + {r}, ops[1..])
         case RemoveSource(_, _) => Paired(t, live - {r}, ops[1..])
  }

  function Without(rules: seq<Rule>, gone: set<Rule>): seq<Rule> {
    if rules == [] then []
    else (if rules[0] in gone then [] else [rules[0]]) + Without(rules[1..], gone)
  }

  lemma {:induction false} WithoutOfAppend(rules: seq<Rule>, r: Rule, gone: set<Rule>)
    requires r !in rules && r !in gone
    ensures Without(rules + [r], gone + {r}) == Without(rules, gone)
  {
    if rules == [] {
      assert rules + [r] == [r] && [r][1..] == [];
    } else {
      assert (rules + [r])[1..] == rules[1..] + [r];
      WithoutOfAppend(rules[1..], r, gone);
    }
  }

  lemma {:induction false} WithoutOfSmaller(rules: seq<Rule>, r: Rule, gone: set<Rule>)
    requires multiset(rules)[r] == if r in gone then 1 else 0
    ensures Without(WithoutFirst(rules, r), gone - {r}) == Without(rules, gone)
  {
    if rules != [] {
      assert rules == [rules[0]] + rules[1..];
      if rules[0] == r {
        assert r !in rules[1..];
        WithoutOfMissing(rules[1..], r, gone);
      } else {
        WithoutOfSmaller(rules[1..], r, gone);
        assert ([rules[0]] + WithoutFirst(rules[1..], r))[1..] == WithoutFirst(rules[1..], r);
      }
    }
  }

  lemma {:induction false} WithoutOfMissing(rules: seq<Rule>, r: Rule, gone: set<Rule>)
    requires r !in rules
    ensures Without(rules, gone - {r}) == Without(rules, gone)
  {
    if rules != [] { WithoutOfMissing(rules[1..], r, gone); }
  }

  lemma {:induction false} WithoutNothing(rules: seq<Rule>)
    ensures Without(rules, {}) == rules
  {
    if rules != [] { WithoutNothing(rules[1..]); }
  }

  lemma {:induction false} WithoutFirstCounts(rules: seq<Rule>, r: Rule)
    ensures multiset(WithoutFirst(rules, r)) == multiset(rules) - multiset{r}
  {
    if rules != [] {
      assert rules == [rules[0]] + rules[1..];
      if rules[0] != r { WithoutFirstCounts(rules[1..], r); }
    }
  }

  /** The chain is the original one with the live rules, each once, mixed in. */
  ghost predicate Mixed(t: Tables, live: set<Rule>, u: Tables) {
    && u.prerouting == t.prerouting
    && Without(u.forward, live) == t.forward
    && forall r :: r !in t.forward ==> multiset(u.forward)[r] == if r in live then 1 else 0
  }

  lemma {:induction false} MixedRun(t: Tables, live: set<Rule>, u: Tables, ops: seq<VmOp>)
    requires Mixed(t, live, u) && Paired(t, live, ops)
    ensures AfterVmOps(u, ops) == t
    decreases |ops|
  {
    if ops == [] {
      WithoutNothing(u.forward);
    } else {
      var r := RequireSource(ops[0].tap, ops[0].ip);
      var u' := AfterVmOp(u, ops[0]);
      match ops[0] {
        case AddSource(_, _) =>
          assert r !in multiset(u.forward);
          WithoutOfAppend(u.forward, r, live);
          MixedRun(t, live + {r}, u', ops[1..]);
        case RemoveSource(_, _) =>
          WithoutOfSmaller(u.forward, r, live);
          WithoutFirstCounts(u.forward, r);
          MixedRun(t, live - {r}, u', ops[1..]);
      }
    }
  }

  /** A whole server run leaves the tables as it found them when each VM's rule was removed again. */
  lemma ServerRunRestores(t: Tables, bridge: IfName, ops: seq<VmOp>)
    requires Absent(t, BaseRules(bridge)) && Paired(t, {}, ops)
    ensures DeletedAll(AfterVmOps(EnsuredAll(t, BaseRules(bridge)), ops), BaseRules(bridge)) == t
  {
    RemoveRestores(t, bridge, ops);
    WithoutNothing(t.forward);
    MixedRun(t, {}, t, ops);
  }

  // ----- The host's tables as an object -----

  /** Every one of the base rules' commands is reached and succeeds. */
  predicate Done(bridge: IfName, failAt: Option<nat>) {
    failAt.None? || failAt.value >= |BaseRules(bridge)|
  }

  /** The base rules whose commands succeed before the one that fails. */
  function Part(bridge: IfName, failAt: Option<nat>): seq<Placed> {
    if Done(bridge, failAt) then BaseRules(bridge) else BaseRules(bridge)[..failAt.value]
  }

  class Host {
    var tables: Tables

    constructor (t: Tables)
      ensures tables == t
    {
      tables := t;
    }

    /** Appends rules in order; command number `failAt`, if there is one, fails and ends the routine. */
    method AppendRules(ps: seq<Placed>, failAt: Option<nat>) returns (r: Result<()>)
      modifies this
      ensures r.Ok? <==> (failAt.None? || failAt.value >= |ps|)
      ensures tables == AppendedAll(old(tables), if r.Ok? then ps else ps[..failAt.value])
    {
      for i := 0 to |ps|
        invariant failAt.Some? ==> i <= failAt.value
        invariant tables == AppendedAll(old(tables), ps[..i])
      {
        if failAt == Some(i) {
          return Err;
        }
        tables := Appended(tables, ps[i]);
        AppendSplits(old(tables), ps[..i], [ps[i]]);
        assert ps[..i] + [ps[i]] == ps[..i + 1];
      }
      assert ps[..|ps|] == ps;
      return Ok(());
    }

    /** Appends each rule that is missing; the check or the append of rule `failAt` may fail. */
    method EnsureRules(ps: seq<Placed>, failAt: Option<nat>) returns (r: Result<()>)
      modifies this
      ensures r.Ok? <==> (failAt.None? || failAt.value >= |ps|)
      ensures tables == EnsuredAll(old(tables), if r.Ok? then ps else ps[..failAt.value])
    {
      for i := 0 to |ps|
        invariant failAt.Some? ==> i <= failAt.value
        invariant tables == EnsuredAll(old(tables), ps[..i])
      {
        if failAt == Some(i) {
          return Err;
        }
        if ps[i].rule !in tables.Get(ps[i].chain) {
          tables := Appended(tables, ps[i]);
        }
        EnsureSplits(old(tables), ps[..i], [ps[i]]);
        assert ps[..i] + [ps[i]] == ps[..i + 1];
      }
      assert ps[..|ps|] == ps;
      return Ok(());
    }

    /** Best-effort removal: nothing happens when iptables cannot be opened, and a deletion that fails is skipped. */
    method RemoveProxyRules(bridge: IfName, opens: bool, works: nat -> bool)
      modifies this
      ensures tables == if opens then DeletedSome(old(tables), BaseRules(bridge), works) else old(tables)
    {
      if !opens {
        return;
      }
      var ps := RemovedRules(bridge);
      ListsAgree(bridge);
      for i := 0 to |ps|
        invariant tables == DeletedSome(old(tables), ps[..i], works)
      {
        assert ps[..i + 1][..i] == ps[..i];
        if works(i) {
          tables := Deleted(tables, ps[i]);
        }
      }
      assert ps[..|ps|] == ps;
    }

    /**
     Startup: a new bridge gets the rules appended; then they are ensured in any case. With the bridge up and
     the rules in place nothing changes. A startup that failed part-way is completed by the next ensure.
     */
    method EnsureBridge(bridge: IfName, bridgeExists: bool, failAdd: Option<nat>, failEnsure: Option<nat>)
      returns (r: Result<()>)
      modifies this
      ensures r.Ok? <==> (bridgeExists || Done(bridge, failAdd)) && Done(bridge, failEnsure)
      ensures tables == if bridgeExists then EnsuredAll(old(tables), Part(bridge, failEnsure))
                        else if Done(bridge, failAdd)
                        then EnsuredAll(AppendedAll(old(tables), BaseRules(bridge)), Part(bridge, failEnsure))
                        else AppendedAll(old(tables), Part(bridge, failAdd))
      ensures bridgeExists && (forall p :: p in BaseRules(bridge) ==> Present(old(tables), p)) ==> tables == old(tables)
      ensures Extends(old(tables), tables)
      ensures r.Ok? ==> forall p :: p in BaseRules(bridge) ==> Present(tables, p)
      ensures Absent(old(tables), BaseRules(bridge)) ==>
                && EnsuredAll(tables, BaseRules(bridge)) == EnsuredAll(old(tables), BaseRules(bridge))
                && (r.Ok? ==> tables == EnsuredAll(old(tables), BaseRules(bridge)))
    {
      var ps := BaseRules(bridge);
      ListsAgree(bridge);
      assert ps[..|ps|] == ps;
      if !bridgeExists {
        r := AppendRules(ps, failAdd);
        ghost var k := if r.Ok? then |ps| else failAdd.value;
        assert ps[..|ps|] == ps;
        AppendExtends(old(tables), ps[..k]);
        if Absent(old(tables), ps) {
          AddThenEnsure(old(tables), bridge, k);
        }
        if r.Err? {
          return;
        }
      }
      ghost var mid := tables;
      r := EnsureRules(EnsuredRules(bridge), failEnsure);
      if bridgeExists && forall p :: p in ps ==> Present(mid, p) {
        EnsureOfPresent(mid, Part(bridge, failEnsure));
      }
      EnsureKeepsOrder(mid, if r.Ok? then ps else ps[..failEnsure.value]);
      EnsureIsIdempotent(mid, ps, if r.Ok? then |ps| else failEnsure.value);
    }
  }

  lemma {:induction false} AppendExtends(t: Tables, ps: seq<Placed>)
    ensures Extends(t, AppendedAll(t, ps))
    decreases |ps|
  {
    if ps != [] { AppendExtends(Appended(t, ps[0]), ps[1..]); }
  }
}
