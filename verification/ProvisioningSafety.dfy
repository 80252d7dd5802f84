/**
 The guarantees of the provisioning protocol over whole runs: every state that any interleaving of
 handlers, with any failures and cancellations, can reach from a freshly started server.
 */
module ProvisioningSafety {
  import opened Options
  import opened IpAllocation
  import opened VmRegistration
  import opened Iptables
  import opened OwnershipLedger
  import opened Provisioning
  import opened ProvisioningProofs

  /** One scheduling decision: what happens next, and to which handler. */
  datatype Event = Event(t: nat, a: Action)

  /** Running `events` from `s0` ends in `s`. */
  ghost predicate Runs(s0: State, events: seq<Event>, s: State)
    decreases |events|
  {
    if events == [] then s == s0
    else
      && Enabled(s0, events[0].t, events[0].a)
      && Runs(After(s0, events[0].t, events[0].a), events[1..], s)
  }

  lemma RunsFirst(s: State, e: Event, rest: seq<Event>, s1: State, end: State)
    requires Enabled(s, e.t, e.a) && s1 == After(s, e.t, e.a) && Runs(s1, rest, end)
    ensures Runs(s, [e] + rest, end)
  {
    assert ([e] + rest)[1..] == rest;
  }

  ghost predicate Reachable(s: State) {
    exists s0, events :: Init(s0) && Runs(s0, events, s)
  }

  lemma {:induction false} RunKeepsInv(s0: State, events: seq<Event>, s: State)
    requires Inv(s0) && Runs(s0, events, s)
    ensures Inv(s)
    decreases |events|
  {
    if events != [] {
      InvStep(s0, events[0].t, events[0].a);
      RunKeepsInv(After(s0, events[0].t, events[0].a), events[1..], s);
    }
  }

  lemma ReachableInv(s: State)
    requires Reachable(s)
    ensures Inv(s)
  {
    var s0, events :| Init(s0) && Runs(s0, events, s);
    InitHolds(s0);
    RunKeepsInv(s0, events, s);
  }

  // ----- Ownership -----

  /** Task `t` holds address `ip`. */
  ghost predicate HoldsIp(s: State, t: nat, ip: IpAddr) {
    t in s.tasks && Claim(s.tasks[t]).Some? && Claim(s.tasks[t]).value.ip == ip
  }

  ghost predicate VmHasIp(s: State, id: VmId, ip: IpAddr) {
    id in s.vms && s.vms[id].ip == ip
  }

  /**
   In every reachable state each allocated address has exactly one owner, a registered VM or a
   handler (one that died holding it included), and nobody owns an address that is not allocated.
   */
  lemma EveryAddressHasOneOwner(s: State, ip: IpAddr)
    requires Reachable(s)
    ensures s.pool.Valid()
    ensures ip in Held(s.pool) <==> (exists id :: VmHasIp(s, id, ip)) || (exists t :: HoldsIp(s, t, ip))
    ensures forall id, id' :: VmHasIp(s, id, ip) && VmHasIp(s, id', ip) ==> id == id'
    ensures forall t, t' :: HoldsIp(s, t, ip) && HoldsIp(s, t', ip) ==> t == t'
    ensures forall id, t :: !(VmHasIp(s, id, ip) && HoldsIp(s, t, ip))
  {
    ReachableInv(s);
    OwnersApart(s);
    var l :| Agrees(s, l) && Sound(l);
    OwnedIffHeld(s, l, ip);
  }

  lemma OwnedIffHeld(s: State, l: Ledger, ip: IpAddr)
    requires Agrees(s, l) && Covered(l)
    ensures ip in Held(s.pool) <==> (exists id :: VmHasIp(s, id, ip)) || (exists t :: HoldsIp(s, t, ip))
  {
    if ip in l.held {
      var o :| OwnsIp(l, o, ip);
      match o
      case Vm(id) => assert VmHasIp(s, id, ip);
      case Handler(t) => assert HoldsIp(s, t, ip);
    }
    forall id | VmHasIp(s, id, ip) ensures ip in l.held { assert Vm(id) in l.own; }
    forall t | HoldsIp(s, t, ip) ensures ip in l.held { assert Handler(t) in l.own; }
  }

  /** So the proxies' reverse lookup gives the same VM whatever order the map is iterated in. */
  lemma LookupIsDeterministic(s: State, order: seq<VmId>, order': seq<VmId>, id: VmId)
    requires Reachable(s) && Enumerates(order, s.vms) && Enumerates(order', s.vms) && id in s.vms
    ensures FirstWithIp(s.vms, order, s.vms[id].ip) == FirstWithIp(s.vms, order', s.vms[id].ip) == Some(id)
  {
    ReachableInv(s);
    OwnersApart(s);
    LookupIgnoresOrder(s.vms, order, order', s.vms[id].ip);
    LookupIgnoresOrder(s.vms, order', order, s.vms[id].ip);
  }

  // ----- Conservation -----

  ghost function Creators(s: State): set<nat> {
    set t | t in s.tasks && s.tasks[t].Creating?
  }

  ghost function Teardowns(s: State): set<nat> {
    set t | t in s.tasks && Claim(s.tasks[t]).Some? && (s.tasks[t].Deleting? || s.tasks[t].Cleaning?)
  }

  ghost function Orphans(s: State): set<nat> {
    set t | t in s.tasks && s.tasks[t].Abandoned?
  }

  lemma {:induction false} InjectiveSize<K, V>(m: map<K, V>)
    requires forall x, y :: x in m && y in m && m[x] == m[y] ==> x == y
    ensures |m.Values| == |m.Keys|
    decreases |m|
  {
    if m.Keys == {} {
      assert m.Values == {};
    } else {
      var x :| x in m;
      var less := m - {x};
      assert less.Keys == m.Keys - {x};
      InjectiveSize(less);
      assert m[x] !in less.Values;
      assert m.Values == less.Values + {m[x]} by {
        assert forall y :: y in less ==> y in m && less[y] == m[y];
        assert forall y :: y in m && y != x ==> y in less && less[y] == m[y];
      }
    }
  }

  lemma OwnersCountHeld(l: Ledger)
    requires Covered(l) && Separate(l)
    ensures |l.own.Keys| == |l.held|
  {
    var ips := map o | o in l.own :: l.own[o].entry.ip;
    forall x, y | x in ips && y in ips && ips[x] == ips[y] ensures x == y {
      assert x != y ==> Apart(l.own[x].entry, l.own[y].entry);
    }
    InjectiveSize(ips);
    assert ips.Keys == l.own.Keys;
    forall ip ensures ip in ips.Values <==> ip in l.held {
      if ip in l.held {
        var o :| OwnsIp(l, o, ip);
        assert o in ips && ips[o] == ip;
      }
    }
    assert ips.Values == l.held;
  }

  ghost function Holders(s: State): set<nat> {
    set t | t in s.tasks && Claim(s.tasks[t]).Some?
  }

  lemma HoldersBySort(s: State)
    ensures |Holders(s)| == |Creators(s)| + |Teardowns(s)| + |Orphans(s)|
  {
    assert Holders(s) == Creators(s) + Teardowns(s) + Orphans(s);
    assert Creators(s) !! Teardowns(s) !! Orphans(s);
  }

  lemma {:induction false} OwnersBySort(vms: set<VmId>, holders: set<nat>, owners: set<Owner>)
    requires forall id :: Vm(id) in owners <==> id in vms
    requires forall t :: Handler(t) in owners <==> t in holders
    ensures |owners| == |vms| + |holders|
    decreases |owners|
  {
    if owners == {} {
      assert forall id :: id !in vms;
      assert forall t :: t !in holders;
    } else {
      var o :| o in owners;
      match o
      case Vm(id) => OwnersBySort(vms - {id}, holders, owners - {o});
      case Handler(t) => OwnersBySort(vms, holders - {t}, owners - {o});
    }
  }

  /**
   Conservation: the addresses handed out are exactly those of the registered VMs, the creates and
   teardowns in flight and the orphans. So at most 253 VMs are ever registered, and a create is
   refused for lack of addresses exactly when 253 are held.
   */
  lemma AddressesAreConserved(s: State)
    requires Reachable(s)
    ensures s.pool.Valid()
    ensures |Held(s.pool)| == |s.vms| + |Creators(s)| + |Teardowns(s)| + |Orphans(s)|
    ensures |s.vms| <= POOL_SIZE
    ensures Allocated(s.pool).0.None? <==> |s.vms| + |Creators(s)| + |Teardowns(s)| + |Orphans(s)| == POOL_SIZE
  {
    ReachableInv(s);
    var l :| Agrees(s, l) && Sound(l);
    OwnersCountHeld(l);
    OwnersBySort(s.vms.Keys, Holders(s), l.own.Keys);
    HoldersBySort(s);
    FullIffExhausted(s.pool);
  }

  // ----- Shutdown racing with deletes -----

  /** The entry whose address the next step of task `t` releases. */
  ghost predicate AboutToFree(s: State, t: nat, e: Entry) {
    && t in s.tasks && Claim(s.tasks[t]) == Some(e)
    && (|| s.tasks[t] == Creating(GiveBack, e)
        || s.tasks[t] == Deleting(FreeAddress, e)
        || (s.tasks[t].Cleaning? && s.tasks[t].busy == Some(FreeAddress)))
  }

  /**
   No address is released twice for the same VM, nor while a registered VM or another handler holds
   it, although the pool does not check and shutdown goes by its own list.
   */
  lemma ReleasesAreSafe(s: State, t: nat, e: Entry)
    requires Reachable(s) && AboutToFree(s, t, e)
    ensures s.pool.Valid() && e.ip in Held(s.pool) && s.frees[e.id] == 0
    ensures forall id :: !VmHasIp(s, id, e.ip)
    ensures forall u :: HoldsIp(s, u, e.ip) ==> u == t
  {
    ReachableInv(s);
    EveryAddressHasOneOwner(s, e.ip);
    assert HoldsIp(s, t, e.ip);
    var l :| Agrees(s, l) && Sound(l);
    assert Handler(t) in l.own && CountedHolding(l, l.own[Handler(t)]);
  }

  /**
   Each VM leaves the registry at most once and has its address freed at most once; a VM on a
   shutdown list is still registered exactly as listed or has left exactly once, and when the
   shutdown reaches the end of its list every VM on it has left.
   */
  lemma ShutdownTakesEachOnce(s: State, t: nat)
    requires Reachable(s)
    ensures forall id :: s.takes[id] <= 1 && s.frees[id] <= 1
    ensures t in s.tasks && s.tasks[t].Cleaning? ==>
              forall i :: 0 <= i < |s.tasks[t].list| ==>
                            var e := s.tasks[t].list[i];
                            if e.id in s.vms then s.vms[e.id] == e && s.takes[e.id] == 0 else s.takes[e.id] == 1
    ensures t in s.tasks && s.tasks[t].Cleaning? && s.tasks[t].next == |s.tasks[t].list| ==>
              forall i :: 0 <= i < |s.tasks[t].list| ==> s.tasks[t].list[i].id !in s.vms
  {
    ReachableInv(s);
    NotTakenYet(s);
    var l :| Agrees(s, l) && Sound(l);
    if t in s.tasks && s.tasks[t].Cleaning? {
      assert CleaningOk(s, s.tasks[t].list, s.tasks[t].next, s.tasks[t].busy);
      forall i | 0 <= i < |s.tasks[t].list| ensures ListedOk(s, s.tasks[t].list[i]) {
      }
    }
  }

  /** Registration never fails: the branch that would keep the address for nobody is dead. */
  lemma RegistrationSucceeds(s: State, t: nat, e: Entry)
    requires Reachable(s) && t in s.tasks && s.tasks[t] == Creating(Register, e)
    ensures e.id !in s.vms
  {
    ReachableInv(s);
    var l :| Agrees(s, l) && Sound(l);
    NotEnrolledYet(s, l, t, e);
  }

  lemma NotEnrolledYet(s: State, l: Ledger, t: nat, e: Entry)
    requires VmsAgree(s.vms, l.own) && TasksAgree(s.tasks, l.own) && Separate(l) && Identified(l)
    requires t in s.tasks && s.tasks[t] == Creating(Register, e)
    ensures e.id !in s.vms
  {
    assert Handler(t) in l.own;
    assert forall o :: o in l.own && o != Handler(t) ==> Apart(l.own[o].entry, l.own[Handler(t)].entry);
  }

  // ----- Source rules -----

  /** Every registered VM has its own source rule in the FORWARD chain, exactly once, whatever failed. */
  lemma EveryVmIsFiltered(s: State, id: VmId)
    requires Reachable(s) && id in s.vms
    ensures multiset(s.forward)[RequireSource(TapName(id), s.vms[id].ip)] == 1
  {
    ReachableInv(s);
    assert VmWants(s.vms, id, SourceRule(s.vms[id]));
    assert Wanted(s, SourceRule(s.vms[id]));
  }

  /** No source rule stands in the chain twice, and no address in two of them, but for rules whose removal failed. */
  lemma OneRulePerAddress(s: State, r: Rule, r': Rule)
    requires Reachable(s)
    requires r.RequireSource? && r in s.forward && r'.RequireSource? && r' in s.forward && r.ip == r'.ip
    ensures r == r' || r in s.strays || r' in s.strays
    ensures multiset(s.forward)[r] == 1
  {
    ReachableInv(s);
    OwnersApart(s);
    assert r in multiset(s.forward) && r' in multiset(s.forward);
    if r !in s.strays && r' !in s.strays {
      SameIpSameRule(s, r, r');
    }
  }

  lemma SameIpSameRule(s: State, r: Rule, r': Rule)
    requires DistinctIps(s) && Wanted(s, r) && Wanted(s, r') && r.RequireSource? && r'.RequireSource? && r.ip == r'.ip
    ensures r == r'
  {
  }

  /** A removal failed at this event. */
  ghost predicate RemovalFails(s: State, e: Event) {
    && e.a == Advance(false) && e.t in s.tasks
    && (|| (s.tasks[e.t].Creating? && s.tasks[e.t].stage.UndoRule?)
        || (s.tasks[e.t].Deleting? && s.tasks[e.t].step.DropRule?)
        || (s.tasks[e.t].Cleaning? && s.tasks[e.t].busy == Some(DropRule)))
  }

  ghost predicate RunsReliably(s0: State, events: seq<Event>, s: State)
    decreases |events|
  {
    if events == [] then s == s0
    else
      && Enabled(s0, events[0].t, events[0].a) && !RemovalFails(s0, events[0])
      && RunsReliably(After(s0, events[0].t, events[0].a), events[1..], s)
  }

  /** A run in which every removal succeeds leaves no stray behind. */
  lemma {:induction false} ReliableRunsLeaveNoStrays(s0: State, events: seq<Event>, s: State)
    requires RunsReliably(s0, events, s)
    ensures s.strays == s0.strays
    decreases |events|
  {
    if events != [] {
      var s1 := After(s0, events[0].t, events[0].a);
      assert s1.strays == s0.strays;
      ReliableRunsLeaveNoStrays(s1, events[1..], s);
    }
  }
}
