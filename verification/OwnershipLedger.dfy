/**
 A ledger of who owns which address, abstracted from the handlers: an owner is a registered VM or a
 handler, and an entry changes hands by one of the operations below. The ledger's invariant is what
 the provisioning protocol relies on, because the pool itself never checks who releases an address.
 */
module OwnershipLedger {
  import opened Options
  import opened IpAllocation
  import opened VmRegistration

  datatype Owner = Vm(id: VmId) | Handler(t: nat)

  /** By what right an owner has its entry. */
  datatype Right =
    | Made        // created it and has not registered it
    | Registered  // the registry itself
    | Taken       // removed it from the registry
    | Lost        // gave up while holding it

  datatype Holding = Holding(entry: Entry, right: Right)

  datatype Ledger = Ledger(
    held: set<IpAddr>,
    own: map<Owner, Holding>,
    pending: map<nat, VmId>,   // handlers with an identifier but no address yet
    used: set<VmId>,           // identifiers handed out so far
    takes: multiset<VmId>,     // removals from the registry
    frees: multiset<VmId>)     // releases of the address

  ghost predicate Apart(e: Entry, e': Entry) {
    e.ip != e'.ip && e.id != e'.id
  }

  ghost predicate OwnsIp(l: Ledger, o: Owner, ip: IpAddr) {
    o in l.own && l.own[o].entry.ip == ip
  }

  /** Each held address has an owner, and each owner a held address. */
  ghost predicate Covered(l: Ledger) {
    && (forall o :: o in l.own ==> l.own[o].entry.ip in l.held)
    && (forall ip :: ip in l.held ==> exists o :: OwnsIp(l, o, ip))
  }

  /** No two owners share an address or an identifier. */
  ghost predicate Separate(l: Ledger) {
    forall o, o' :: o in l.own && o' in l.own && o != o' ==> Apart(l.own[o].entry, l.own[o'].entry)
  }

  /** Identifiers in play were handed out, once each. */
  ghost predicate Identified(l: Ledger) {
    && (forall o :: o in l.own ==> l.own[o].entry.id in l.used)
    && (forall o :: o in l.own && o.Vm? ==> l.own[o].entry.id == o.id && l.own[o].right == Registered)
    && (forall o :: o in l.own && o.Handler? ==> l.own[o].right != Registered)
    && (forall t :: t in l.pending ==> l.pending[t] in l.used)
    && (forall t, o :: t in l.pending && o in l.own ==> l.own[o].entry.id != l.pending[t])
    && (forall t, t' :: t in l.pending && t' in l.pending && t != t' ==> l.pending[t] != l.pending[t'])
  }

  /** Each identifier is taken from the registry at most once, and its address freed at most once. */
  ghost predicate Counted(l: Ledger) {
    && (forall id :: l.takes[id] <= 1 && l.frees[id] <= 1)
    && (forall id :: id !in l.used ==> l.takes[id] == 0 && l.frees[id] == 0)
    && (forall t :: t in l.pending ==> l.takes[l.pending[t]] == 0 && l.frees[l.pending[t]] == 0)
    && (forall o :: o in l.own ==> CountedHolding(l, l.own[o]))
  }

  ghost predicate CountedHolding(l: Ledger, h: Holding) {
    && l.frees[h.entry.id] == 0
    && (h.right.Made? || h.right.Registered? ==> l.takes[h.entry.id] == 0)
    && (h.right.Taken? ==> l.takes[h.entry.id] == 1)
  }

  ghost predicate Sound(l: Ledger) {
    Covered(l) && Separate(l) && Identified(l) && Counted(l)
  }

  // ----- The operations -----

  function Reserve(l: Ledger, t: nat, id: VmId): Ledger {
    l.(pending := l.pending[t := id], used := l.used + {id})
  }

  function Dismiss(l: Ledger, t: nat): Ledger {
    l.(pending := l.pending - {t})
  }

  function Grant(l: Ledger, t: nat, e: Entry): Ledger {
    l.(pending := l.pending - {t}, own := l.own[Handler(t) := Holding(e, Made)], held := l.held + {e.ip})
  }

  function Enroll(l: Ledger, t: nat, e: Entry): Ledger {
    l.(own := (l.own - {Handler(t)})[Vm(e.id) := Holding(e, Registered)])
  }

  function TakeOver(l: Ledger, t: nat, e: Entry): Ledger {
    l.(own := (l.own - {Vm(e.id)})[Handler(t) := Holding(e, Taken)], takes := l.takes + multiset{e.id})
  }

  function Free(l: Ledger, t: nat, e: Entry): Ledger {
    l.(own := l.own - {Handler(t)}, held := l.held - {e.ip}, frees := l.frees + multiset{e.id})
  }

  function Lose(l: Ledger, t: nat, e: Entry): Ledger {
    l.(own := l.own[Handler(t) := Holding(e, Lost)])
  }

  // ----- Each operation keeps the ledger sound -----

  lemma ReserveCovered(l: Ledger, t: nat, id: VmId)
    requires Covered(l)
    ensures Covered(Reserve(l, t, id))
  {
    assert forall o, ip :: OwnsIp(l, o, ip) ==> OwnsIp(Reserve(l, t, id), o, ip);
  }

  lemma ReserveSeparate(l: Ledger, t: nat, id: VmId)
    requires Separate(l)
    ensures Separate(Reserve(l, t, id))
  {
  }

  lemma ReserveIdentified(l: Ledger, t: nat, id: VmId)
    requires Identified(l) && id !in l.used && t !in l.pending
    ensures Identified(Reserve(l, t, id))
  {
  }

  lemma ReserveCounted(l: Ledger, t: nat, id: VmId)
    requires Counted(l) && id !in l.used && t !in l.pending
    ensures Counted(Reserve(l, t, id))
  {
  }

  lemma ReserveSound(l: Ledger, t: nat, id: VmId)
    requires Sound(l) && id !in l.used && t !in l.pending
    ensures Sound(Reserve(l, t, id))
  {
    ReserveCovered(l, t, id);
    ReserveSeparate(l, t, id);
    ReserveIdentified(l, t, id);
    ReserveCounted(l, t, id);
  }

  lemma DismissCovered(l: Ledger, t: nat)
    requires Covered(l)
    ensures Covered(Dismiss(l, t))
  {
    assert forall o, ip :: OwnsIp(l, o, ip) ==> OwnsIp(Dismiss(l, t), o, ip);
  }

  lemma DismissSeparate(l: Ledger, t: nat)
    requires Separate(l)
    ensures Separate(Dismiss(l, t))
  {
  }

  lemma DismissIdentified(l: Ledger, t: nat)
    requires Identified(l)
    ensures Identified(Dismiss(l, t))
  {
  }

  lemma DismissCounted(l: Ledger, t: nat)
    requires Counted(l)
    ensures Counted(Dismiss(l, t))
  {
  }

  lemma DismissSound(l: Ledger, t: nat)
    requires Sound(l)
    ensures Sound(Dismiss(l, t))
  {
    DismissCovered(l, t);
    DismissSeparate(l, t);
    DismissIdentified(l, t);
    DismissCounted(l, t);
  }

  lemma GrantCovered(l: Ledger, t: nat, e: Entry)
    requires Covered(l) && Handler(t) !in l.own
    ensures Covered(Grant(l, t, e))
  {
    assert OwnsIp(Grant(l, t, e), Handler(t), e.ip);
    assert forall o, ip :: OwnsIp(l, o, ip) ==> OwnsIp(Grant(l, t, e), o, ip);
  }

  lemma GrantSeparate(l: Ledger, t: nat, e: Entry)
    requires Separate(l) && Covered(l) && e.ip !in l.held && (forall o :: o in l.own ==> l.own[o].entry.id != e.id)
    ensures Separate(Grant(l, t, e))
  {
  }

  lemma GrantIdentified(l: Ledger, t: nat, e: Entry)
    requires Identified(l) && Handler(t) !in l.own && t in l.pending && l.pending[t] == e.id
    ensures Identified(Grant(l, t, e))
  {
  }

  lemma GrantCounted(l: Ledger, t: nat, e: Entry)
    requires Counted(l) && t in l.pending && l.pending[t] == e.id
    ensures Counted(Grant(l, t, e))
  {
  }

  lemma GrantSound(l: Ledger, t: nat, e: Entry)
    requires Sound(l) && Handler(t) !in l.own && t in l.pending && l.pending[t] == e.id && e.ip !in l.held
    ensures Sound(Grant(l, t, e))
  {
    GrantCovered(l, t, e);
    GrantSeparate(l, t, e);
    GrantIdentified(l, t, e);
    GrantCounted(l, t, e);
  }

  lemma EnrollCovered(l: Ledger, t: nat, e: Entry)
    requires Covered(l) && Handler(t) in l.own && l.own[Handler(t)].entry == e && Vm(e.id) !in l.own
    ensures Covered(Enroll(l, t, e))
  {
    assert OwnsIp(Enroll(l, t, e), Vm(e.id), e.ip);
    assert forall o, ip :: OwnsIp(l, o, ip) && o != Handler(t) ==> OwnsIp(Enroll(l, t, e), o, ip);
  }

  lemma EnrollSeparate(l: Ledger, t: nat, e: Entry)
    requires Separate(l) && Handler(t) in l.own && l.own[Handler(t)].entry == e
    ensures Separate(Enroll(l, t, e))
  {
  }

  lemma EnrollIdentified(l: Ledger, t: nat, e: Entry)
    requires Identified(l) && Handler(t) in l.own && l.own[Handler(t)].entry == e
    ensures Identified(Enroll(l, t, e))
  {
  }

  lemma EnrollCounted(l: Ledger, t: nat, e: Entry)
    requires Counted(l) && Handler(t) in l.own && l.own[Handler(t)] == Holding(e, Made)
    ensures Counted(Enroll(l, t, e))
  {
  }

  lemma EnrollSound(l: Ledger, t: nat, e: Entry)
    requires Sound(l) && Handler(t) in l.own && l.own[Handler(t)] == Holding(e, Made) && Vm(e.id) !in l.own
    ensures Sound(Enroll(l, t, e))
  {
    EnrollCovered(l, t, e);
    EnrollSeparate(l, t, e);
    EnrollIdentified(l, t, e);
    EnrollCounted(l, t, e);
  }

  lemma TakeOverCovered(l: Ledger, t: nat, e: Entry)
    requires Covered(l) && Handler(t) !in l.own && Vm(e.id) in l.own && l.own[Vm(e.id)].entry == e
    ensures Covered(TakeOver(l, t, e))
  {
    assert OwnsIp(TakeOver(l, t, e), Handler(t), e.ip);
    assert forall o, ip :: OwnsIp(l, o, ip) && o != Vm(e.id) ==> OwnsIp(TakeOver(l, t, e), o, ip);
  }

  lemma TakeOverSeparate(l: Ledger, t: nat, e: Entry)
    requires Separate(l) && Handler(t) !in l.own && Vm(e.id) in l.own && l.own[Vm(e.id)].entry == e
    ensures Separate(TakeOver(l, t, e))
  {
  }

  lemma TakeOverIdentified(l: Ledger, t: nat, e: Entry)
    requires Identified(l) && Handler(t) !in l.own && Vm(e.id) in l.own && l.own[Vm(e.id)].entry == e
    ensures Identified(TakeOver(l, t, e))
  {
  }

  lemma TakeOverCounted(l: Ledger, t: nat, e: Entry)
    requires Counted(l) && Separate(l) && Identified(l) && Handler(t) !in l.own && Vm(e.id) in l.own && l.own[Vm(e.id)].entry == e
    ensures Counted(TakeOver(l, t, e))
  {
  }

  lemma TakeOverSound(l: Ledger, t: nat, e: Entry)
    requires Sound(l) && Handler(t) !in l.own && Vm(e.id) in l.own && l.own[Vm(e.id)].entry == e
    ensures Sound(TakeOver(l, t, e))
  {
    TakeOverCovered(l, t, e);
    TakeOverSeparate(l, t, e);
    TakeOverIdentified(l, t, e);
    TakeOverCounted(l, t, e);
  }

  lemma FreeCovered(l: Ledger, t: nat, e: Entry)
    requires Covered(l) && Separate(l) && Handler(t) in l.own && l.own[Handler(t)].entry == e
    ensures Covered(Free(l, t, e))
  {
    assert forall o, ip :: OwnsIp(l, o, ip) && o != Handler(t) ==> OwnsIp(Free(l, t, e), o, ip);
  }

  lemma FreeSeparate(l: Ledger, t: nat, e: Entry)
    requires Separate(l) && Handler(t) in l.own && l.own[Handler(t)].entry == e
    ensures Separate(Free(l, t, e))
  {
  }

  lemma FreeIdentified(l: Ledger, t: nat, e: Entry)
    requires Identified(l) && Handler(t) in l.own && l.own[Handler(t)].entry == e
    ensures Identified(Free(l, t, e))
  {
  }

  lemma FreeCounted(l: Ledger, t: nat, e: Entry)
    requires Counted(l) && Separate(l) && Identified(l) && Handler(t) in l.own && l.own[Handler(t)].entry == e
    ensures Counted(Free(l, t, e))
  {
  }

  lemma FreeSound(l: Ledger, t: nat, e: Entry)
    requires Sound(l) && Handler(t) in l.own && l.own[Handler(t)].entry == e
    ensures Sound(Free(l, t, e))
  {
    FreeCovered(l, t, e);
    FreeSeparate(l, t, e);
    FreeIdentified(l, t, e);
    FreeCounted(l, t, e);
  }

  lemma LoseCovered(l: Ledger, t: nat, e: Entry)
    requires Covered(l) && Handler(t) in l.own && l.own[Handler(t)].entry == e
    ensures Covered(Lose(l, t, e))
  {
    assert forall o, ip :: OwnsIp(l, o, ip) ==> OwnsIp(Lose(l, t, e), o, ip);
  }

  lemma LoseSeparate(l: Ledger, t: nat, e: Entry)
    requires Separate(l) && Handler(t) in l.own && l.own[Handler(t)].entry == e
    ensures Separate(Lose(l, t, e))
  {
  }

  lemma LoseIdentified(l: Ledger, t: nat, e: Entry)
    requires Identified(l) && Handler(t) in l.own && l.own[Handler(t)].entry == e
    ensures Identified(Lose(l, t, e))
  {
  }

  lemma LoseCounted(l: Ledger, t: nat, e: Entry)
    requires Counted(l) && Handler(t) in l.own && l.own[Handler(t)].entry == e
    ensures Counted(Lose(l, t, e))
  {
  }

  lemma LoseSound(l: Ledger, t: nat, e: Entry)
    requires Sound(l) && Handler(t) in l.own && l.own[Handler(t)].entry == e
    ensures Sound(Lose(l, t, e))
  {
    LoseCovered(l, t, e);
    LoseSeparate(l, t, e);
    LoseIdentified(l, t, e);
    LoseCounted(l, t, e);
  }
}
