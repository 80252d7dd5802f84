/**
 The registry of running VMs: a map from VM identifiers to entries. A hash map is iterated in an
 unspecified order, so every iteration takes the order it happens to use as a parameter.
 */
module VmRegistration {
  import opened Options
  import opened IpAllocation
  import opened Iptables

  /** A UUID: a number of 32 hexadecimal digits. */
  type VmId = n: int | 0 <= n < 0x1_0000_0000_0000_0000_0000_0000_0000_0000

  /** The parts of a registry entry that the other components rely on. */
  datatype Entry = Entry(id: VmId, ip: IpAddr, tap: IfName)

  type Vms = map<VmId, Entry>

  function Inserted(vms: Vms, id: VmId, entry: Entry): (Result<()>, Vms) {
    if id in vms then (Err, vms) else (Ok(()), vms[id := entry])
  }

  function Removed(vms: Vms, id: VmId): (Result<Entry>, Vms) {
    if id in vms then (Ok(vms[id]), vms - {id}) else (Err, vms)
  }

  /** `order` visits every key once. */
  ghost predicate Enumerates(order: seq<VmId>, vms: Vms) {
    && (forall i, j :: 0 <= i < j < |order| ==> order[i] != order[j])
    && (forall i :: 0 <= i < |order| ==> order[i] in vms)
    && (forall id :: id in vms ==> id in order)
  }

  function Listing(order: seq<VmId>, vms: Vms): (r: seq<Entry>)
    requires forall i :: 0 <= i < |order| ==> order[i] in vms
  {
    seq(|order|, i requires 0 <= i < |order| => vms[order[i]])
  }

  /** No two registered VMs share an address. */
  ghost predicate DistinctAddresses(vms: Vms) {
    forall a, b :: a in vms && b in vms && vms[a].ip == vms[b].ip ==> a == b
  }

  class VmRegistry {
    var vms: Vms

    constructor ()
      ensures vms == map[]
    {
      vms := map[];
    }

    method Insert(id: VmId, entry: Entry) returns (r: Result<()>)
      modifies this
      ensures (r, vms) == Inserted(old(vms), id, entry)
      ensures r.Ok? <==> id !in old(vms)
      ensures vms == if id in old(vms) then old(vms) else old(vms)[id := entry]
    {
      if id in vms {
        return Err;
      }
      vms := vms[id := entry];
      return Ok(());
    }

    method Remove(id: VmId) returns (r: Result<Entry>)
      modifies this
      ensures (r, vms) == Removed(old(vms), id)
      ensures if id in old(vms) then r == Ok(old(vms)[id]) else r == Err
      ensures vms == old(vms) - {id}
    {
      if id in vms {
        r := Ok(vms[id]);
        vms := vms - {id};
      } else {
        r := Err;
      }
    }
  }

  /** The reverse lookup the proxies use: the first entry with that address in iteration order. */
  method FindByIp(vms: Vms, order: seq<VmId>, ip: IpAddr) returns (r: Option<VmId>)
    requires Enumerates(order, vms)
    ensures r.Some? ==> r.value in vms && vms[r.value].ip == ip
    ensures r.None? <==> forall id :: id in vms ==> vms[id].ip != ip
    ensures r == FirstWithIp(vms, order, ip)
  {
    for i := 0 to |order|
      invariant forall j :: 0 <= j < i ==> vms[order[j]].ip != ip
      invariant FirstWithIp(vms, order, ip) == FirstWithIp(vms, order[i..], ip)
    {
      if vms[order[i]].ip == ip {
        return Some(order[i]);
      }
      assert order[i..][1..] == order[i + 1..];
    }
    return None;
  }

  function FirstWithIp(vms: Vms, order: seq<VmId>, ip: IpAddr): (r: Option<VmId>)
    requires forall i :: 0 <= i < |order| ==> order[i] in vms
    ensures r.Some? ==> r.value in order && vms[r.value].ip == ip
    ensures r.None? ==> forall i :: 0 <= i < |order| ==> vms[order[i]].ip != ip
  {
    if order == [] then None
    else if vms[order[0]].ip == ip then Some(order[0])
    else FirstWithIp(vms, order[1..], ip)
  }

  /** With distinct addresses the lookup does not depend on the iteration order. */
  lemma LookupIgnoresOrder(vms: Vms, order: seq<VmId>, order': seq<VmId>, ip: IpAddr)
    requires DistinctAddresses(vms) && Enumerates(order, vms) && Enumerates(order', vms)
    ensures FirstWithIp(vms, order, ip) == FirstWithIp(vms, order', ip)
    ensures forall id :: id in vms && vms[id].ip == ip ==> FirstWithIp(vms, order, ip) == Some(id)
  {
    forall id | id in vms && vms[id].ip == ip
      ensures FirstWithIp(vms, order, ip) == Some(id) && FirstWithIp(vms, order', ip) == Some(id)
    {
      assert id in order && id in order';
    }
  }
}
