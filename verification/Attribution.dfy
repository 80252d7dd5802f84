/**
 Which VM a proxied HTTPS request is charged to: the TLS proxy writes the client's address in front of
 the decrypted stream, the HTTP proxy reads it back and looks it up in the registry.
 */
module Attribution {
  import opened Options
  import opened Bytes
  import opened IpAllocation
  import opened VmRegistration
  import opened ProxyProtocol
  import opened Provisioning
  import opened ProvisioningSafety

  /** A connection without a header is dropped; a request from an unknown address is forbidden. */
  datatype Verdict = Dropped | Forbidden | ChargedTo(id: VmId)

  function Charge(header: Result<IpAddr>, vms: Vms, order: seq<VmId>): Verdict
    requires forall i :: 0 <= i < |order| ==> order[i] in vms
  {
    match header
    case Err => Dropped
    case Ok(ip) =>
      match FirstWithIp(vms, order, ip)
      case None => Forbidden
      case Some(id) => ChargedTo(id)
  }

  /** What the HTTP proxy does with a connection before it looks at the request; `body` is what is left of it. */
  method Attribute(stream: seq<byte>, vms: Vms, order: seq<VmId>, v6: Parse) returns (v: Verdict, body: seq<byte>)
    requires Enumerates(order, vms)
    ensures forall end: nat :: IsLine(stream, end) ==>
              v == Charge(ParseLine(stream[..end], v6), vms, order) && body == stream[end..]
    ensures (forall end: nat :: !IsLine(stream, end)) ==> v == Dropped
  {
    var header, used := ReadProxyHeader(stream, v6);
    body := stream[used..];
    match header {
      case Err =>
        return Dropped, body;
      case Ok(ip) =>
        var id := FindByIp(vms, order, ip);
        v := if id.Some? then ChargedTo(id.value) else Forbidden;
    }
  }

  /**
   In every reachable state of the server, a connection from an IPv4 client is charged to a VM exactly
   when the registry holds that VM under the client's address, whatever order the registry is iterated
   in, and the request bytes that follow are untouched.
   */
  lemma ChargedToItsVm(s: State, order: seq<VmId>, client: SocketAddr, server: SocketAddr, request: seq<byte>,
                       show: Show, v6: Parse, id: VmId)
    requires Reachable(s) && Enumerates(order, s.vms) && client.ip.V4? && server.ip.V4?
    ensures var header := Header(client, server, show);
            var stream := header + request;
            var end := |header|;
            && IsLine(stream, end) && stream[end..] == request
            && (Charge(ParseLine(stream[..end], v6), s.vms, order) == ChargedTo(id)
                <==> id in s.vms && s.vms[id].ip == client.ip)
            && (Charge(ParseLine(stream[..end], v6), s.vms, order) == Forbidden
                <==> forall other :: other in s.vms ==> s.vms[other].ip != client.ip)
  {
    HeaderRoundTrip(client, server, request, show, v6);
    if id in s.vms && s.vms[id].ip == client.ip {
      LookupIsDeterministic(s, order, order, id);
    }
    assert forall other :: other in s.vms ==> other in order;
  }
}
