/**
 The round-robin allocator of the 192.168.100.0/24 pool: a bitmap of 253 addresses (.2 to .254) and
 a cursor. `Pool` is the allocator's value, `IpAllocator` the object that updates it in place.
 */
module IpAllocation {
  import opened Options

  /** 192.168.100.0 as a 32-bit number. */
  const NETWORK_BASE: nat := 3232261120
  const POOL_SIZE: nat := 253

  /** An IP address; IPv4 and IPv6 addresses are numbers of their own widths. */
  datatype IpAddr = V4(bits: Word32) | V6(wide: nat)

  type Word32 = n: int | 0 <= n < 0x1_0000_0000

  /** The bitmap and the cursor. */
  datatype Pool = Pool(taken: seq<bool>, next: nat) {
    ghost predicate Valid() {
      |taken| == POOL_SIZE && next < POOL_SIZE
    }
  }

  function EmptyPool(): Pool {
    Pool(seq(POOL_SIZE, _ => false), 0)
  }

  type Index = i: int | 0 <= i < 253

  function AddressOf(i: Index): IpAddr {
    V4(NETWORK_BASE + 2 + i)
  }

  /** The bitmap position of an address, when it lies in the allocatable range. */
  function IndexOf(ip: IpAddr): Option<Index> {
    if ip.V4? && NETWORK_BASE + 2 <= ip.bits <= NETWORK_BASE + 254
    then Some(ip.bits - NETWORK_BASE - 2)
    else None
  }

  /** Every address that may ever be handed out. */
  ghost function Allocatable(): set<IpAddr> {
    set i: Index :: AddressOf(i)
  }

  /** The abstract value of the allocator: the addresses it has handed out. */
  ghost function Held(p: Pool): set<IpAddr>
    requires p.Valid()
  {
    set i: Index | p.taken[i] :: AddressOf(i)
  }

  /** How many positions the cursor passes before it reaches `to`. */
  function Distance(from: Index, to: Index): (d: Index)
    ensures (from + d) % POOL_SIZE == to
  {
    if from <= to then to - from else to + POOL_SIZE - from
  }

  /** `i` is the free position the cursor reaches first. */
  ghost predicate NearestFree(p: Pool, i: Index)
    requires p.Valid()
  {
    && !p.taken[i]
    && forall j: Index :: !p.taken[j] ==> Distance(p.next, i) <= Distance(p.next, j)
  }

  /** The first free position found scanning from offset `k` past the cursor. */
  function FindFree(p: Pool, k: nat): Option<Index>
    requires p.Valid() && k <= POOL_SIZE
    decreases POOL_SIZE - k
  {
    if k == POOL_SIZE then None
    else
      var i := (p.next + k) % POOL_SIZE;
      if !p.taken[i] then Some(i) else FindFree(p, k + 1)
  }

  /** The scan finds the free position nearest the cursor, and misses only when none is free. */
  lemma {:induction false} ScanFindsNearest(p: Pool, k: nat)
    requires p.Valid() && k <= POOL_SIZE
    requires forall j: Index :: !p.taken[j] ==> k <= Distance(p.next, j)
    ensures FindFree(p, k).Some? ==> NearestFree(p, FindFree(p, k).value)
    ensures FindFree(p, k).None? <==> forall j: Index :: p.taken[j]
    decreases POOL_SIZE - k
  {
    if k == POOL_SIZE {
      assert forall j: Index :: Distance(p.next, j) < POOL_SIZE;
    } else {
      var i := (p.next + k) % POOL_SIZE;
      assert Distance(p.next, i) == k;
      if p.taken[i] {
        assert forall j: Index :: Distance(p.next, j) == k ==> j == i;
        ScanFindsNearest(p, k + 1);
      }
    }
  }

  function Allocated(p: Pool): (r: (Option<IpAddr>, Pool))
    requires p.Valid()
    ensures r.1.Valid()
  {
    match FindFree(p, 0)
    case None => (None, p)
    case Some(i) => (Some(AddressOf(i)), Pool(p.taken[i := true], (i + 1) % POOL_SIZE))
  }

  function Released(p: Pool, ip: IpAddr): (r: (Result<()>, Pool))
    requires p.Valid()
    ensures r.1.Valid()
  {
    match IndexOf(ip)
    case None => (Err, p)
    case Some(i) => (Ok(()), p.(taken := p.taken[i := false]))
  }

  // ----- The bitmap refines a set of addresses -----

  /** Positions and addresses correspond one to one, and no reserved address is in the range. */
  lemma AddressesAreIndices(ip: IpAddr)
    ensures IndexOf(ip).Some? <==> ip in Allocatable()
    ensures IndexOf(ip).Some? ==> AddressOf(IndexOf(ip).value) == ip
    ensures forall i: Index :: IndexOf(AddressOf(i)) == Some(i)
    ensures V4(NETWORK_BASE) !in Allocatable() && V4(NETWORK_BASE + 1) !in Allocatable()
    ensures V4(NETWORK_BASE + 255) !in Allocatable()
  {
    if IndexOf(ip).Some? {
      assert AddressOf(IndexOf(ip).value) == ip;
    }
  }

  lemma HeldIffTaken(p: Pool, i: Index)
    requires p.Valid()
    ensures AddressOf(i) in Held(p) <==> p.taken[i]
  {
    assert forall j: Index :: AddressOf(j) == AddressOf(i) ==> j == i;
  }

  /** `Allocate` adds one new address to the set, the free one nearest the cursor, or fails because the set is full. */
  lemma AllocateRefinesSet(p: Pool)
    requires p.Valid()
    ensures var (r, p') := Allocated(p);
            match r
            case Some(ip) => ip in Allocatable() && ip !in Held(p) && Held(p') == Held(p) + {ip}
            case None => p' == p && Held(p) == Allocatable()
    ensures var r := Allocated(p).0; r.Some? ==> IndexOf(r.value).Some? && NearestFree(p, IndexOf(r.value).value)
  {
    ScanFindsNearest(p, 0);
    match FindFree(p, 0)
    case None =>
    case Some(i) =>
      var (r, p') := Allocated(p);
      HeldIffTaken(p, i);
      assert p'.taken[i];
      forall ip ensures ip in Held(p') <==> ip in Held(p) + {AddressOf(i)} {
        if ip in Held(p') {
          var j: Index :| p'.taken[j] && AddressOf(j) == ip;
          assert j == i || p.taken[j];
        }
        if ip in Held(p) {
          var j: Index :| p.taken[j] && AddressOf(j) == ip;
          assert p'.taken[j];
        }
      }
  }

  /** `Release` removes exactly that address; it is refused, changing nothing, outside the range. */
  lemma ReleaseRefinesSet(p: Pool, ip: IpAddr)
    requires p.Valid()
    ensures var (r, p') := Released(p, ip);
            && (r.Ok? <==> ip in Allocatable())
            && Held(p') == Held(p) - {ip}
            && (r.Err? ==> p' == p)
  {
    AddressesAreIndices(ip);
    var p' := Released(p, ip).1;
    forall a ensures a in Held(p') <==> a in Held(p) - {ip} {
      if a in Held(p) && a != ip {
        var j: Index :| p.taken[j] && AddressOf(j) == a;
        assert p'.taken[j];
      }
      if a in Held(p') {
        var j: Index :| p'.taken[j] && AddressOf(j) == a;
        assert p.taken[j];
      }
    }
  }

  // ----- Runs: any sequence of calls -----

  datatype Call = AllocateCall | ReleaseCall(ip: IpAddr)

  function AfterCall(p: Pool, c: Call): (p': Pool)
    requires p.Valid()
    ensures p'.Valid()
  {
    match c
    case AllocateCall => Allocated(p).1
    case ReleaseCall(ip) => Released(p, ip).1
  }

  function AfterCalls(p: Pool, calls: seq<Call>): (p': Pool)
    requires p.Valid()
    ensures p'.Valid()
    decreases |calls|
  {
    if calls == [] then p else AfterCalls(AfterCall(p, calls[0]), calls[1..])
  }

  /** The addresses a sequence of calls hands out, oldest first, as positions. */
  function Issued(p: Pool, calls: seq<Call>): seq<Index>
    requires p.Valid()
    decreases |calls|
  {
    if calls == [] then []
    else
      var rest := Issued(AfterCall(p, calls[0]), calls[1..]);
      if calls[0].AllocateCall? && FindFree(p, 0).Some? then [FindFree(p, 0).value] + rest else rest
  }

  /** The answers a plain set of addresses allows: any free address, `None` only when full. */
  ghost predicate SetAllows(held: set<IpAddr>, c: Call, answer: Option<IpAddr>, held': set<IpAddr>) {
    match c
    case ReleaseCall(ip) => answer == None && held' == held - {ip}
    case AllocateCall =>
      match answer
      case None => held == Allocatable() && held' == held
      case Some(ip) => ip in Allocatable() - held && held' == held + {ip}
  }

  /** Over any call sequence, each call answers as a plain set of addresses may answer. */
  lemma {:induction false} RunRefinesSet(p: Pool, calls: seq<Call>, k: nat)
    requires p.Valid() && k < |calls|
    ensures var before := AfterCalls(p, calls[..k]);
            var answer := if calls[k].AllocateCall? then Allocated(before).0 else None;
            SetAllows(Held(before), calls[k], answer, Held(AfterCalls(p, calls[..k + 1])))
    decreases k
  {
    if k == 0 {
      assert calls[..1][1..] == [];
      AllocateRefinesSet(p);
      if calls[0].ReleaseCall? { ReleaseRefinesSet(p, calls[0].ip); }
    } else {
      RunRefinesSet(AfterCall(p, calls[0]), calls[1..], k - 1);
      assert calls[..k][1..] == calls[1..][..k - 1];
      assert calls[..k + 1][1..] == calls[1..][..k];
    }
  }

  /** One allocation of another position brings a free position strictly nearer. */
  lemma AllocationApproaches(p: Pool, i: Index)
    requires p.Valid() && !p.taken[i]
    ensures FindFree(p, 0).Some?
    ensures var j := FindFree(p, 0).value;
            var p' := Allocated(p).1;
            j != i ==> !p'.taken[i] && Distance(p.next, j) < Distance(p.next, i)
                       && Distance(p'.next, i) == Distance(p.next, i) - Distance(p.next, j) - 1
  {
    ScanFindsNearest(p, 0);
    var j := FindFree(p, 0).value;
    assert Distance(p.next, j) <= Distance(p.next, i);
    if j != i {
      CursorApproaches(p.next, j, i);
    }
  }

  lemma CursorApproaches(next: Index, j: Index, i: Index)
    requires j != i && Distance(next, j) <= Distance(next, i)
    ensures Distance(next, j) < Distance(next, i)
    ensures Distance((j + 1) % POOL_SIZE, i) == Distance(next, i) - Distance(next, j) - 1
  {
  }

  /**
   Starvation bound: whatever releases are interleaved, a free address is among the next
   (distance from the cursor + 1) addresses handed out, hence among the next 253.
   */
  lemma {:induction false} StarvationBound(p: Pool, calls: seq<Call>, i: Index)
    requires p.Valid() && !p.taken[i]
    requires |Issued(p, calls)| > Distance(p.next, i)
    ensures i in Issued(p, calls)[..Distance(p.next, i) + 1]
    ensures Distance(p.next, i) + 1 <= POOL_SIZE
    decreases |calls|
  {
    var p' := AfterCall(p, calls[0]);
    var rest := Issued(p', calls[1..]);
    if calls[0].ReleaseCall? {
      StarvationBound(p', calls[1..], i);
    } else {
      AllocationApproaches(p, i);
      var j := FindFree(p, 0).value;
      if j == i {
        assert Issued(p, calls)[..Distance(p.next, i) + 1][0] == i;
      } else {
        StarvationBound(p', calls[1..], i);
        var d, d' := Distance(p.next, i), Distance(p'.next, i);
        assert ([j] + rest)[..d + 1] == [j] + rest[..d];
        assert rest[..d' + 1] <= rest[..d];
      }
    }
  }

  /** Of two free addresses, the one nearer the cursor is always handed out first. */
  lemma {:induction false} NearerIsFirst(p: Pool, calls: seq<Call>, near: Index, far: Index, m: nat)
    requires p.Valid() && !p.taken[near] && !p.taken[far]
    requires Distance(p.next, near) < Distance(p.next, far)
    requires m < |Issued(p, calls)| && Issued(p, calls)[m] == far
    ensures near in Issued(p, calls)[..m]
    decreases |calls|
  {
    var p' := AfterCall(p, calls[0]);
    var rest := Issued(p', calls[1..]);
    if calls[0].ReleaseCall? {
      NearerIsFirst(p', calls[1..], near, far, m);
    } else {
      AllocationApproaches(p, near);
      AllocationApproaches(p, far);
      var j := FindFree(p, 0).value;
      assert m > 0;
      assert ([j] + rest)[..m] == [j] + rest[..m - 1];
      if j != near {
        NearerIsFirst(p', calls[1..], near, far, m - 1);
      }
    }
  }

  // ----- Counting -----

  ghost function HeldBelow(p: Pool, n: nat): set<IpAddr>
    requires p.Valid() && n <= POOL_SIZE
  {
    set i: Index | i < n && p.taken[i] :: AddressOf(i)
  }

  lemma HeldBelowStep(p: Pool, n: nat)
    requires p.Valid() && n < POOL_SIZE
    ensures |HeldBelow(p, n + 1)| == |HeldBelow(p, n)| + if p.taken[n] then 1 else 0
  {
    var more := HeldBelow(p, n + 1);
    var less := HeldBelow(p, n);
    if p.taken[n] {
      assert AddressOf(n) !in less;
      assert more == less + {AddressOf(n)};
    } else {
      assert more == less;
    }
  }

  lemma {:induction false} AllocatableBelow(n: nat)
    requires n <= POOL_SIZE
    ensures |(set i: Index | i < n :: AddressOf(i))| == n
  {
    var below := set i: Index | i < n :: AddressOf(i);
    if n == 0 {
      assert below == {};
    } else {
      AllocatableBelow(n - 1);
      var less := set i: Index | i < n - 1 :: AddressOf(i);
      assert AddressOf(n - 1) !in less;
      assert below == less + {AddressOf(n - 1)};
    }
  }

  /** A pool never holds more than 253 addresses, and allocation fails exactly when it holds 253. */
  lemma FullIffExhausted(p: Pool)
    requires p.Valid()
    ensures |Held(p)| <= POOL_SIZE
    ensures Allocated(p).0.None? <==> |Held(p)| == POOL_SIZE
  {
    ScanFindsNearest(p, 0);
    AllocatableBelow(POOL_SIZE);
    assert Allocatable() == set i: Index | i < POOL_SIZE :: AddressOf(i);
    assert Held(p) <= Allocatable();
    SubsetSize(Held(p), Allocatable());
    if Held(p) == Allocatable() {
      forall j: Index ensures p.taken[j] { HeldIffTaken(p, j); }
    }
    AllocateRefinesSet(p);
  }

  lemma {:induction false} SubsetSize<T>(a: set<T>, b: set<T>)
    requires a <= b
    ensures |a| <= |b|
    ensures |a| == |b| ==> a == b
    decreases |a|
  {
    if a != {} {
      var x :| x in a;
      SubsetSize(a - {x}, b - {x});
      assert a == (a - {x}) + {x} && b == (b - {x}) + {x};
    }
  }

  // ----- The object -----

  class IpAllocator {
    const bitmap: array<bool>
    var nextIndex: nat

    ghost predicate Valid()
      reads this
    {
      bitmap.Length == POOL_SIZE && nextIndex < POOL_SIZE
    }

    ghost function Value(): (p: Pool)
      requires Valid()
      reads this, bitmap
      ensures p.Valid()
    {
      Pool(bitmap[..], nextIndex)
    }

    constructor ()
      ensures Valid() && fresh(bitmap)
      ensures Value() == EmptyPool() && Held(Value()) == {}
    {
      bitmap := new bool[253](_ => false);
      nextIndex := 0;
      new;
      assert bitmap[..] == EmptyPool().taken;
    }

    method Allocate() returns (r: Option<IpAddr>)
      requires Valid()
      modifies this`nextIndex, bitmap
      ensures Valid() && (r, Value()) == Allocated(old(Value()))
    {
      ghost var was := Value();
      for i := 0 to POOL_SIZE
        invariant Valid() && bitmap[..] == was.taken && nextIndex == was.next
        invariant FindFree(was, 0) == FindFree(was, i)
      {
        var index := (nextIndex + i) % POOL_SIZE;
        if !bitmap[index] {
          bitmap[index] := true;
          nextIndex := (index + 1) % POOL_SIZE;
          assert bitmap[..] == was.taken[index := true];
          return Some(V4(NETWORK_BASE + 2 + index));
        }
      }
      return None;
    }

    method Release(ip: IpAddr) returns (r: Result<()>)
      requires Valid()
      modifies bitmap
      ensures Valid() && (r, Value()) == Released(old(Value()), ip)
    {
      if ip.V6? {
        return Err;
      }
      var bits := ip.bits;
      if bits < NETWORK_BASE + 2 || bits > NETWORK_BASE + 254 {
        return Err;
      }
      var index := bits - NETWORK_BASE - 2;
      if index >= bitmap.Length {
        return Err;
      }
      bitmap[index] := false;
      assert bitmap[..] == old(bitmap[..])[index := false];
      return Ok(());
    }

    method AllocatedCount() returns (n: nat)
      requires Valid()
      ensures n == |Held(Value())|
    {
      n := 0;
      assert HeldBelow(Value(), 0) == {};
      for i := 0 to bitmap.Length
        invariant n == |HeldBelow(Value(), i)|
      {
        HeldBelowStep(Value(), i);
        if bitmap[i] { n := n + 1; }
      }
      assert HeldBelow(Value(), POOL_SIZE) == Held(Value());
    }

    method AvailableCount() returns (n: nat)
      requires Valid()
      ensures n == POOL_SIZE - |Held(Value())|
    {
      var used := AllocatedCount();
      FullIffExhausted(Value());
      n := bitmap.Length - used;
    }
  }
}
